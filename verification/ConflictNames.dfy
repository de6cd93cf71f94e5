/** The name of a conflict copy, and the reader that recovers the original name from it. */
module ConflictNames {
  import opened CausalVersions
  import opened Text

  /* ---- names as file systems and pathlib see them ---- */

  /** Bytes of a character in UTF-8. */
  function Width(c: char): (n: nat)
    ensures 1 <= n <= 4
  {
    if c as int < 0x80 then 1 else if c as int < 0x800 then 2 else if c as int < 0x10000 then 3 else 4
  }

  function Size(s: string): nat {
    if s == "" then 0 else Size(s[..|s| - 1]) + Width(s[|s| - 1])
  }

  lemma {:induction false} SizeOfConcat(a: string, b: string)
    ensures Size(a + b) == Size(a) + Size(b)
  {
    if b == "" {
      assert a + b == a;
    } else {
      SizeOfConcat(a, b[..|b| - 1]);
      assert (a + b)[..|a + b| - 1] == a + b[..|b| - 1];
    }
  }

  predicate Ascii(s: string) {
    forall i :: 0 <= i < |s| ==> s[i] as int < 0x80
  }

  lemma {:induction false} SizeOfAscii(s: string)
    requires Ascii(s)
    ensures Size(s) == |s|
  {
    if s != "" {
      SizeOfAscii(s[..|s| - 1]);
    }
  }

  lemma {:induction false} SizeIsPositive(s: string)
    requires s != ""
    ensures Size(s) >= 1 && Size(s) >= Width(s[0])
  {
    if |s| > 1 {
      SizeIsPositive(s[..|s| - 1]);
      assert s[..|s| - 1][0] == s[0];
    } else {
      assert Size(s[..0]) == 0;
    }
  }

  /** Position of the last dot, or |name|. */
  function LastDot(name: string, from: nat): (i: nat)
    requires from <= |name|
    ensures i == |name| || (i < from && name[i] == '.')
    ensures i < |name| ==> forall k :: i < k < from ==> name[k] != '.'
  {
    if from == 0 then |name| else if name[from - 1] == '.' then from - 1 else LastDot(name, from - 1)
  }

  function SuffixStart(name: string): (i: nat)
    ensures i <= |name| && (i < |name| ==> 0 < i && name[i] == '.')
  {
    var i := LastDot(name, |name|);
    if 0 < i < |name| - 1 then i else |name|
  }

  function StemOf(name: string): string {
    name[..SuffixStart(name)]
  }

  function SuffixOf(name: string): string {
    name[SuffixStart(name)..]
  }

  /* ---- printing ---- */

  const OPENING := " (conflitto da "
  const MAX_NAME_BYTES := 240

  /** Device identifiers and content tokens are eight hexadecimal digits. */
  predicate Hex8(s: string) {
    |s| == 8 && forall i :: 0 <= i < 8 ==> '0' <= s[i] <= '9' || 'a' <= s[i] <= 'f'
  }

  function Tag(device: string, token: string): string {
    OPENING + device + " " + token + ")"
  }

  lemma TagShape(device: string, token: string)
    requires Hex8(device) && Hex8(token)
    ensures var tag := Tag(device, token);
            && |tag| == 33 && Ascii(tag) && Size(tag) == 33
            && tag[..15] == OPENING
            && (forall i :: 0 <= i < 33 ==> tag[i] != '.' && tag[i] != '\n')
            && (forall i :: 0 < i < 32 ==> !(tag[i] == ' ' && tag[i + 1] == '('))
            && tag[32] == ')'
  {
    var tag := Tag(device, token);
    assert forall i :: 15 <= i < 23 ==> tag[i] == device[i - 15];
    assert forall i :: 24 <= i < 32 ==> tag[i] == token[i - 24];
    assert tag[23] == ' ' && tag[32] == ')' && tag[24] == token[0];
    SizeOfAscii(tag);
  }

  /** The suffix is given up when it alone is too long. */
  function KeptSuffix(name: string, tag: string): string {
    if Size(tag + SuffixOf(name)) >= MAX_NAME_BYTES then "" else SuffixOf(name)
  }

  function FullStem(name: string, tag: string): string {
    if Size(tag + SuffixOf(name)) >= MAX_NAME_BYTES then name else StemOf(name)
  }

  /** The longest beginning of a stem that fits. */
  function Shortened(stem: string, budget: int): (r: string)
    ensures r <= stem && (r == "" || Size(r) <= budget)
    ensures forall k :: |r| < k <= |stem| ==> Size(stem[..k]) > budget
  {
    if stem == "" then ""
    else if Size(stem) <= budget then stem
    else
      assert forall k :: 0 <= k < |stem| ==> stem[..|stem| - 1][..k] == stem[..k];
      assert stem[..|stem|] == stem;
      Shortened(stem[..|stem| - 1], budget)
  }

  function Fitting(name: string, tag: string): string {
    Shortened(FullStem(name, tag), MAX_NAME_BYTES - Size(tag + KeptSuffix(name, tag)))
  }

  function Front(name: string, tag: string): string {
    if Fitting(name, tag) == "" then "file" else Fitting(name, tag)
  }

  function ConflictName(name: string, device: string, token: string): string {
    Front(name, Tag(device, token)) + Tag(device, token) + KeptSuffix(name, Tag(device, token))
  }

  /** The loop that takes one character after the other off the stem. */
  method Print(name: string, device: string, token: string) returns (r: string)
    ensures r == ConflictName(name, device, token)
  {
    hide Size, LastDot, SuffixStart;
    var tag := Tag(device, token);
    var suffix := SuffixOf(name);
    var stem;
    if Size(tag + suffix) >= MAX_NAME_BYTES {
      suffix := "";
      stem := name;
    } else {
      stem := StemOf(name);
    }
    var budget := MAX_NAME_BYTES - Size(tag + suffix);
    ghost var full := stem;
    while stem != "" && Size(stem) > budget
      invariant Shortened(stem, budget) == Shortened(full, budget)
      decreases |stem|
    {
      stem := stem[..|stem| - 1];
    }
    r := (if stem == "" then "file" else stem) + tag + suffix;
  }

  lemma SizeOfKept(name: string, tag: string)
    requires |tag| == 33 && Ascii(tag)
    ensures Size(tag + KeptSuffix(name, tag)) == 33 + Size(KeptSuffix(name, tag)) < MAX_NAME_BYTES
    ensures Size(tag + SuffixOf(name)) == 33 + Size(SuffixOf(name))
    ensures Size(name) == Size(StemOf(name)) + Size(SuffixOf(name))
  {
    SizeOfAscii(tag);
    SizeOfConcat(tag, KeptSuffix(name, tag));
    SizeOfConcat(tag, SuffixOf(name));
    SizeOfConcat(StemOf(name), SuffixOf(name));
    assert name == StemOf(name) + SuffixOf(name);
  }

  /** Nothing of a stem fits only when it starts with a character wider than the room. */
  lemma NothingFits(name: string, tag: string)
    requires |tag| == 33 && Ascii(tag) && name != "" && Fitting(name, tag) == ""
    ensures name[0] as int >= 0x80 && MAX_NAME_BYTES - Size(tag + KeptSuffix(name, tag)) <= 3
  {
    var full := FullStem(name, tag);
    var first := full[..1];
    SizeOfKept(name, tag);
    assert full[0] == name[0] && first == [full[0]];
    assert Size(first[..0]) == 0;
    assert Size(first) == Width(full[0]);
  }

  /** The result is at most 240 bytes; 243 when nothing of the stem fitted. */
  lemma NameFits(name: string, device: string, token: string)
    requires Hex8(device) && Hex8(token) && name != ""
    ensures var tag := Tag(device, token);
            Size(ConflictName(name, device, token)) <= if Fitting(name, tag) == "" then MAX_NAME_BYTES + 3 else MAX_NAME_BYTES
  {
    hide Size, Shortened, LastDot, SuffixStart;
    TagShape(device, token);
    var tag := Tag(device, token);
    SizeOfKept(name, tag);
    var (front, suffix) := (Front(name, tag), KeptSuffix(name, tag));
    SizeOfConcat(front, tag + suffix);
    assert front + tag + suffix == front + (tag + suffix);
    if Fitting(name, tag) == "" {
      SizeOfAscii("file");
      NothingFits(name, tag);
    }
  }

  /** The full stem and the kept suffix make up the name. */
  lemma PartsOfName(name: string, tag: string)
    requires name != ""
    ensures FullStem(name, tag) + KeptSuffix(name, tag) == name
    ensures FullStem(name, tag) != "" && FullStem(name, tag)[0] == name[0]
  {
    hide Size, LastDot, Width;
  }

  lemma ShortNameIsSplit(name: string, tag: string)
    requires |tag| == 33 && Ascii(tag) && name != "" && Size(name) <= 207
    ensures FullStem(name, tag) == StemOf(name) && KeptSuffix(name, tag) == SuffixOf(name)
  {
    hide Size, LastDot, SuffixStart;
    SizeOfKept(name, tag);
    PartsOfName(name, tag);
    if StemOf(name) != "" {
      SizeIsPositive(StemOf(name));
    }
  }

  /** The whole stem fits exactly when the name has at most 207 bytes. */
  lemma FullStemFits(name: string, tag: string)
    requires |tag| == 33 && Ascii(tag) && name != ""
    ensures Fitting(name, tag) == FullStem(name, tag) <==> Size(name) <= 207
  {
    hide Size, Shortened, FullStem, KeptSuffix, SuffixOf, StemOf;
    var (full, suffix) := (FullStem(name, tag), KeptSuffix(name, tag));
    PartsOfName(name, tag);
    SizeOfConcat(full, suffix);
    SizeOfKept(name, tag);
    assert full[..|full|] == full;
  }

  /** The stand-in stem never equals the stem it stands for. */
  lemma StandInDiffers(name: string, tag: string)
    requires |tag| == 33 && Ascii(tag) && name != "" && Fitting(name, tag) == ""
    ensures Front(name, tag) != FullStem(name, tag)
  {
    hide Size, Fitting, FullStem, KeptSuffix;
    NothingFits(name, tag);
    PartsOfName(name, tag);
    assert "file"[0] == 'f';
  }

  /** Nothing is cut off exactly when the name itself has at most 207 bytes. */
  lemma UncutExactly(name: string, tag: string)
    requires |tag| == 33 && Ascii(tag) && name != ""
    ensures Front(name, tag) == FullStem(name, tag) <==> Size(name) <= 207
    ensures Size(name) <= 207 ==> FullStem(name, tag) == StemOf(name) && KeptSuffix(name, tag) == SuffixOf(name)
    ensures FullStem(name, tag) + KeptSuffix(name, tag) == name && FullStem(name, tag) != ""
  {
    hide Size, Fitting, FullStem, KeptSuffix, StemOf, SuffixOf;
    PartsOfName(name, tag);
    FullStemFits(name, tag);
    if Size(name) <= 207 {
      ShortNameIsSplit(name, tag);
    }
    if Fitting(name, tag) == "" {
      StandInDiffers(name, tag);
    }
  }

  /* ---- reading ---- */

  datatype TailMatch = TailMatch(length: nat, suffix: string)

  /** First space or closing parenthesis, or |s|. */
  function WordEnd(s: string, from: nat): (i: nat)
    requires from <= |s|
    ensures from <= i <= |s|
    ensures forall k :: from <= k < i ==> s[k] != ' ' && s[k] != ')'
    ensures i < |s| ==> s[i] == ' ' || s[i] == ')'
    decreases |s| - from
  {
    if from == |s| || s[from] == ' ' || s[from] == ')' then from else WordEnd(s, from + 1)
  }

  /** The part of the pattern after the stem, at the start of `s`: the opening, an origin
      without space or parenthesis, a space, something without parenthesis, the closing
      parenthesis, and at the end of the name nothing or a dotted suffix. A final newline
      counts as the end. */
  function Tail(s: string): Option<TailMatch> {
    if !(OPENING <= s) then None else
      var origin := WordEnd(s, 15);
      if origin == 15 || origin == |s| || s[origin] != ' ' then None else
        var close := IndexOf(s, ')', origin + 1);
        if close == origin + 1 || close == |s| then None else
          var rest := s[close + 1..];
          if rest == "" || rest == "\n" then Some(TailMatch(close + 1, ""))
          else if rest[0] == '.' && '/' !in rest then Some(TailMatch(close + 1, rest))
          else None
  }

  lemma TailShape(s: string)
    requires Tail(s).Some?
    ensures var m := Tail(s).value;
            && 19 <= m.length && OPENING <= s && s[0] == ' '
            && (m.suffix == "" || m.suffix[0] == '.')
            && m.length + |m.suffix| <= |s| <= m.length + |m.suffix| + 1
  {
  }

  /** The pattern matches with a stem of length `k`; a stem has no newline. */
  predicate MatchesAt(name: string, k: nat) {
    k <= |name| && '\n' !in name[..k] && Tail(name[k..]).Some?
  }

  /** The stem is matched greedily: the last position at or before `k`. */
  function LastMatch(name: string, k: nat): (r: Option<nat>)
    requires k <= |name|
    ensures r.Some? ==> r.value <= k && MatchesAt(name, r.value) && forall j :: r.value < j <= k ==> !MatchesAt(name, j)
    ensures r.None? ==> forall j :: 0 <= j <= k ==> !MatchesAt(name, j)
  {
    if MatchesAt(name, k) then Some(k) else if k == 0 then None else LastMatch(name, k - 1)
  }

  function Rebuilt(name: string, k: nat): string
    requires MatchesAt(name, k)
  {
    name[..k] + Tail(name[k..]).value.suffix
  }

  function Original(name: string): Option<string> {
    var k := LastMatch(name, |name|);
    if k.None? then None else Some(Rebuilt(name, k.value))
  }

  /** Some part of the suffix reads as a conflict tag of its own. */
  ghost predicate HasTag(suffix: string) {
    exists k :: MatchesAt(suffix, k)
  }

  /* ---- round trip ---- */

  /** A printed tag is read back whole. */
  lemma OwnTagMatches(device: string, token: string, suffix: string)
    requires Hex8(device) && Hex8(token)
    requires suffix == "" || (suffix[0] == '.' && '/' !in suffix)
    ensures Tail(Tag(device, token) + suffix) == Some(TailMatch(33, suffix))
  {
    var tag := Tag(device, token);
    var s := tag + suffix;
    assert s[..15] == OPENING;
    assert forall i :: 15 <= i < 23 ==> s[i] == device[i - 15];
    assert forall i :: 24 <= i < 32 ==> s[i] == token[i - 24];
    assert s[23] == ' ' && s[32] == ')';
    WordEndIs(s, 15, 23);
    IndexOfIs(s, ')', 24, 32);
    assert s[33..] == suffix;
  }

  lemma WordEndIs(s: string, from: nat, i: nat)
    requires from <= i < |s| && (s[i] == ' ' || s[i] == ')')
    requires forall k :: from <= k < i ==> s[k] != ' ' && s[k] != ')'
    ensures WordEnd(s, from) == i
  {
  }

  /** Everything about a printed name that reading it depends on. */
  ghost predicate Printed(front: string, tag: string, suffix: string) {
    && |tag| == 33 && tag[..15] == OPENING
    && (forall i :: 0 <= i < 33 ==> tag[i] != '.' && tag[i] != '\n')
    && (forall i :: 0 < i < 32 ==> !(tag[i] == ' ' && tag[i + 1] == '('))
    && tag[32] == ')'
    && (suffix == "" || (suffix[0] == '.' && '/' !in suffix))
    && Tail(tag + suffix) == Some(TailMatch(33, suffix))
  }

  /** Inside the printed tag no other tag starts. */
  lemma NoMatchInsideTag(front: string, tag: string, suffix: string, k: nat)
    requires Printed(front, tag, suffix) && |front| < k < |front| + 33
    ensures !MatchesAt(front + tag + suffix, k)
  {
    var rest := (front + tag + suffix)[k..];
    var i := k - |front|;
    assert rest[0] == tag[i] && (i < 32 ==> rest[1] == tag[i + 1]);
    assert OPENING[0] == ' ' && OPENING[1] == '(';
  }

  /** After the tag the reader sees the suffix alone. */
  lemma MatchInSuffix(front: string, tag: string, suffix: string, k: nat)
    requires Printed(front, tag, suffix) && '\n' !in front && k <= |suffix|
    ensures var at := |front| + 33 + k;
            && (MatchesAt(front + tag + suffix, at) <==> MatchesAt(suffix, k))
            && (MatchesAt(suffix, k) ==> Rebuilt(front + tag + suffix, at) == front + tag + Rebuilt(suffix, k))
  {
    hide Tail;
    var name := front + tag + suffix;
    var at := |front| + 33 + k;
    assert name[at..] == suffix[k..];
    assert name[..at] == front + tag + suffix[..k];
    assert '\n' !in tag;
  }

  /** The longest stem: the printed one, or one that reaches into the suffix. */
  lemma WhereItMatches(front: string, tag: string, suffix: string)
    requires Printed(front, tag, suffix) && '\n' !in front
    ensures var name := front + tag + suffix;
            var k := LastMatch(name, |name|);
            && k.Some?
            && (if HasTag(suffix) then |front| + 33 <= k.value && MatchesAt(suffix, k.value - |front| - 33) else k.value == |front|)
  {
    hide Tail, Rebuilt;
    var name := front + tag + suffix;
    assert name[|front|..] == tag + suffix && name[..|front|] == front;
    assert MatchesAt(name, |front|);
    var k := LastMatch(name, |name|).value;
    if |front| < k < |front| + 33 {
      NoMatchInsideTag(front, tag, suffix, k);
    }
    if |front| + 33 <= k {
      MatchInSuffix(front, tag, suffix, k - |front| - 33);
    }
    if HasTag(suffix) {
      var j :| MatchesAt(suffix, j);
      MatchInSuffix(front, tag, suffix, j);
    }
  }

  /** A match that starts within the beginning of the name gives another name: where the
      name has a space, the rebuilt one has a dot or ends. */
  lemma EarlyMatchMisses(front: string, rest: string, name: string, k: nat)
    requires front <= name && k < |front| && MatchesAt(front + rest, k)
    ensures Rebuilt(front + rest, k) != name
  {
    hide Tail;
    var printed := front + rest;
    var suffix := Tail(printed[k..]).value.suffix;
    TailShape(printed[k..]);
    assert printed[k..][0] == ' ';
    assert name[k] == front[k] == printed[k] == ' ';
    var rebuilt := printed[..k] + suffix;
    assert |rebuilt| > k ==> rebuilt[k] == suffix[0] == '.';
  }

  /** A newline in the beginning keeps every match within it. */
  lemma NewlineStopsStem(front: string, rest: string, k: nat)
    requires '\n' in front && k <= |front + rest|
    ensures MatchesAt(front + rest, k) ==> k < |front|
  {
    var i :| 0 <= i < |front| && front[i] == '\n';
    var stem := (front + rest)[..k];
    assert i < k ==> stem[i] == '\n' && '\n' in stem;
  }

  lemma NewlineMisses(front: string, rest: string, name: string)
    requires front <= name && '\n' in front
    ensures Original(front + rest) != Some(name)
  {
    var printed := front + rest;
    var k := LastMatch(printed, |printed|);
    if k.Some? {
      NewlineStopsStem(front, rest, k.value);
      EarlyMatchMisses(front, rest, name, k.value);
    }
  }

  /** A tag inside the suffix is taken for the real one, and another name comes out. */
  lemma TagInSuffixMisses(front: string, tag: string, suffix: string, full: string)
    requires Printed(front, tag, suffix) && '\n' !in front && HasTag(suffix) && front <= full
    ensures Original(front + tag + suffix) != Some(full + suffix)
  {
    hide Tail;
    var printed, name := front + tag + suffix, full + suffix;
    WhereItMatches(front, tag, suffix);
    var at := LastMatch(printed, |printed|).value;
    var k := at - |front| - 33;
    MatchInSuffix(front, tag, suffix, k);
    var m := Tail(suffix[k..]).value;
    TailShape(suffix[k..]);
    var rebuilt := front + tag + (suffix[..k] + m.suffix);
    assert Rebuilt(printed, at) == rebuilt;
    assert |suffix[k..]| == |suffix| - k;
    if |full| - |front| < 33 {
      assert rebuilt[|full|] == tag[|full| - |front|] != '.';
      assert name[|full|] == suffix[0] == '.';
    } else {
      assert |rebuilt| < |name|;
    }
  }

  /** When nothing of the stem fitted, the stand-in "file" is not the name's beginning. */
  lemma StandInMisses(rest: string, name: string)
    requires name != "" && name[0] != 'f'
    ensures Original("file" + rest) != Some(name)
  {
    hide Tail;
    var printed := "file" + rest;
    var k := LastMatch(printed, |printed|);
    forall j | 0 <= j < 4 ensures !MatchesAt(printed, j) {
      assert printed[j..][0] == "file"[j] != ' ';
      if Tail(printed[j..]).Some? {
        TailShape(printed[j..]);
      }
    }
    if k.Some? {
      assert Rebuilt(printed, k.value)[0] == printed[0] == 'f';
    }
  }

  lemma PrintedShape(name: string, device: string, token: string)
    requires Hex8(device) && Hex8(token) && '/' !in name
    ensures Printed(Front(name, Tag(device, token)), Tag(device, token), KeptSuffix(name, Tag(device, token)))
  {
    hide Size, Shortened, LastDot;
    TagShape(device, token);
    OwnTagMatches(device, token, KeptSuffix(name, Tag(device, token)));
  }

  /** Reading back a beginning of `full`, a tag and a suffix. */
  lemma ReadsBackExactly(front: string, tag: string, suffix: string, full: string)
    requires Printed(front, tag, suffix) && front <= full
    ensures Original(front + tag + suffix) == Some(full + suffix) <==> front == full && '\n' !in front && !HasTag(suffix)
  {
    hide Tail, HasTag, LastMatch;
    var printed := front + tag + suffix;
    if '\n' in front {
      assert printed == front + (tag + suffix);
      NewlineMisses(front, tag + suffix, full + suffix);
    } else if HasTag(suffix) {
      TagInSuffixMisses(front, tag, suffix, full);
    } else {
      WhereItMatches(front, tag, suffix);
      assert printed[|front|..] == tag + suffix && printed[..|front|] == front;
      assert Rebuilt(printed, |front|) == front + suffix;
    }
  }

  /** The reader recovers the original name exactly when the name has at most 207 bytes,
      no newline before its suffix, and no conflict tag within its suffix. */
  lemma RoundTripExactly(name: string, device: string, token: string)
    requires Hex8(device) && Hex8(token) && name != "" && '/' !in name
    ensures Original(ConflictName(name, device, token)) == Some(name)
            <==> Size(name) <= 207 && '\n' !in StemOf(name) && !HasTag(SuffixOf(name))
  {
    hide Tail, Size, Shortened, SuffixStart, HasTag, Tag, LastMatch, Original, StemOf, SuffixOf, FullStem, KeptSuffix, Printed;
    var tag := Tag(device, token);
    TagShape(device, token);
    PrintedShape(name, device, token);
    UncutExactly(name, tag);
    var (front, full, suffix) := (Front(name, tag), FullStem(name, tag), KeptSuffix(name, tag));
    if Fitting(name, tag) == "" {
      NothingFits(name, tag);
      StandInMisses(tag + suffix, name);
      assert front + tag + suffix == front + (tag + suffix);
      assert full[0] == name[0] && front[0] == 'f';
    } else {
      ReadsBackExactly(front, tag, suffix, full);
    }
  }

  /* ---- what the name says ---- */

  /** The length of a character in UTF-8, by the ranges of RFC 3629, section 3. */
  lemma WidthExactly(c: char)
    ensures Width(c) == 1 <==> c as int <= 0x7F
    ensures Width(c) == 2 <==> 0x80 <= c as int <= 0x7FF
    ensures Width(c) == 3 <==> 0x800 <= c as int <= 0xFFFF
    ensures Width(c) == 4 <==> c as int >= 0x10000
  {
  }

  /** The suffix starts at the last dot, if that neither begins nor ends the name. */
  lemma SuffixExactly(name: string, dot: nat)
    requires dot < |name| && name[dot] == '.' && forall k :: dot < k < |name| ==> name[k] != '.'
    ensures StemOf(name) == (if 0 < dot < |name| - 1 then name[..dot] else name)
    ensures SuffixOf(name) == (if 0 < dot < |name| - 1 then name[dot..] else "")
  {
    var i := LastDot(name, |name|);
    assert i == dot by {
      LastDotIs(name, |name|, dot);
    }
  }

  lemma NoDotNoSuffix(name: string)
    requires '.' !in name
    ensures StemOf(name) == name && SuffixOf(name) == ""
  {
  }

  lemma {:induction false} LastDotIs(name: string, from: nat, dot: nat)
    requires dot < from <= |name| && name[dot] == '.' && forall k :: dot < k < from ==> name[k] != '.'
    ensures LastDot(name, from) == dot
  {
    if from - 1 > dot {
      LastDotIs(name, from - 1, dot);
    }
  }

  /** The device named in the tag, as the reader's pattern finds it. */
  function Origin(name: string): Option<string> {
    match LastMatch(name, |name|)
    case None => None
    case Some(k) =>
      var tail := name[k..];
      TailShape(tail);
      Some(tail[15..WordEnd(tail, 15)])
  }

  /** Wherever the tag can be read at all, it names the device that lost. */
  lemma OriginIsDevice(name: string, device: string, token: string)
    requires Hex8(device) && Hex8(token) && name != "" && '/' !in name
    requires var tag := Tag(device, token); '\n' !in Front(name, tag) && !HasTag(KeptSuffix(name, tag))
    ensures Origin(ConflictName(name, device, token)) == Some(device)
  {
    hide Tail, Size, Shortened, SuffixStart, HasTag, LastMatch, StemOf, SuffixOf, FullStem, KeptSuffix, Printed, Fitting, WordEnd;
    var tag := Tag(device, token);
    var (front, suffix) := (Front(name, tag), KeptSuffix(name, tag));
    var printed := front + tag + suffix;
    PrintedShape(name, device, token);
    WhereItMatches(front, tag, suffix);
    var tail := printed[|front|..];
    assert tail == tag + suffix;
    assert tail[15..23] == device;
    WordEndIs(tail, 15, 23);
  }

  /** Copies of one name are told apart by device and content token. */
  lemma NamesAreApart(name: string, device: string, token: string, device': string, token': string)
    requires Hex8(device) && Hex8(token) && Hex8(device') && Hex8(token') && name != ""
    ensures ConflictName(name, device, token) == ConflictName(name, device', token') <==> device == device' && token == token'
  {
    hide Size, Shortened, SuffixStart, LastDot, Tag;
    var (tag, tag') := (Tag(device, token), Tag(device', token'));
    TagShape(device, token);
    TagShape(device', token');
    SizeOfKept(name, tag);
    SizeOfKept(name, tag');
    var (front, suffix) := (Front(name, tag), KeptSuffix(name, tag));
    assert Front(name, tag') == front && KeptSuffix(name, tag') == suffix;
    TagWithin(front, tag, suffix);
    TagWithin(front, tag', suffix);
    PartsOfTag(device, token);
    PartsOfTag(device', token');
  }

  lemma TagWithin(front: string, tag: string, suffix: string)
    ensures (front + tag + suffix)[|front|..|front| + |tag|] == tag
  {
  }

  lemma PartsOfTag(device: string, token: string)
    requires Hex8(device) && Hex8(token)
    ensures |Tag(device, token)| == 33 && Tag(device, token)[15..23] == device && Tag(device, token)[24..32] == token
  {
  }
}
