/** The text form of a clock: "device:counter" components joined by commas. */
module CausalCodec {
  import opened CausalVersions
  import opened Text

  function EncodeComponent(d: Device, n: nat): string {
    d + ":" + Decimal(n)
  }

  ghost function EncodeParts(v: Clock, devices: seq<Device>): (parts: seq<string>)
    requires forall d :: d in devices ==> d in v
    ensures |parts| == |devices|
  {
    seq(|devices|, i requires 0 <= i < |devices| => EncodeComponent(devices[i], v[devices[i]]))
  }

  ghost function Encode(v: Clock): string {
    Join(EncodeParts(v, Sorted(v.Keys)), ',')
  }

  /** Split at the first colon; the rest must be a non-empty run of digits. */
  function ParseComponent(component: string): Option<(Device, nat)> {
    var colon := IndexOf(component, ':', 0);
    if colon == |component| || colon == 0 || !AllDigits(component[colon + 1..]) then None
    else Some((component[..colon], Value(component[colon + 1..])))
  }

  function ParseComponents(components: seq<string>): (r: Option<seq<(Device, nat)>>)
    ensures r.Some? <==> forall c :: c in components ==> ParseComponent(c).Some?
    ensures r.Some? ==> |r.value| == |components| &&
                        forall i :: 0 <= i < |components| ==> r.value[i] == ParseComponent(components[i]).value
  {
    if components == [] then Some([]) else
      var first, rest := ParseComponent(components[0]), ParseComponents(components[1..]);
      if first.None? || rest.None? then None else Some([first.value] + rest.value)
  }

  predicate DistinctDevices(pairs: seq<(Device, nat)>) {
    forall i, j :: 0 <= i < j < |pairs| ==> pairs[i].0 != pairs[j].0
  }

  predicate ValidPairs(pairs: seq<(Device, nat)>) {
    DistinctDevices(pairs) && forall i :: 0 <= i < |pairs| ==> pairs[i].0 != "" && pairs[i].1 >= 1
  }

  /** The constructor's checks. */
  function Make(pairs: seq<(Device, nat)>): (r: Option<Clock>)
    ensures r.Some? <==> ValidPairs(pairs)
    ensures r.Some? ==> IsClockOf(r.value, pairs)
  {
    if ValidPairs(pairs) then
      FromPairsIsClock(pairs);
      Some(FromPairs(pairs))
    else
      None
  }

  function FromPairs(pairs: seq<(Device, nat)>): Clock
    requires ValidPairs(pairs)
  {
    if pairs == [] then map[] else
      var n := |pairs| - 1;
      FromPairs(pairs[..n])[pairs[n].0 := pairs[n].1]
  }

  ghost predicate IsClockOf(m: Clock, pairs: seq<(Device, nat)>) {
    && (forall i :: 0 <= i < |pairs| ==> pairs[i].0 in m && m[pairs[i].0] == pairs[i].1)
    && (forall d :: d in m ==> exists i :: 0 <= i < |pairs| && pairs[i].0 == d)
  }

  lemma FromPairsIsClock(pairs: seq<(Device, nat)>)
    requires ValidPairs(pairs)
    ensures IsClockOf(FromPairs(pairs), pairs)
  {
    FromPairsHolds(pairs);
    FromPairsHoldsOnly(pairs);
  }

  lemma {:induction false} FromPairsHolds(pairs: seq<(Device, nat)>)
    requires ValidPairs(pairs)
    ensures var m := FromPairs(pairs); forall i :: 0 <= i < |pairs| ==> pairs[i].0 in m && m[pairs[i].0] == pairs[i].1
  {
    if pairs != [] {
      var n := |pairs| - 1;
      var m := FromPairs(pairs);
      FromPairsHolds(pairs[..n]);
      forall i | 0 <= i < n ensures pairs[i].0 in m && m[pairs[i].0] == pairs[i].1 {
        assert pairs[..n][i] == pairs[i] && pairs[i].0 != pairs[n].0;
      }
    }
  }

  lemma {:induction false} FromPairsHoldsOnly(pairs: seq<(Device, nat)>)
    requires ValidPairs(pairs)
    ensures forall d :: d in FromPairs(pairs) ==> exists i :: 0 <= i < |pairs| && pairs[i].0 == d
  {
    if pairs != [] {
      var n := |pairs| - 1;
      FromPairsHoldsOnly(pairs[..n]);
      forall d | d in FromPairs(pairs) ensures exists i :: 0 <= i < |pairs| && pairs[i].0 == d {
        if d != pairs[n].0 {
          assert d in FromPairs(pairs[..n]);
          var i :| 0 <= i < n && pairs[..n][i].0 == d;
          assert pairs[i].0 == d;
        }
      }
    }
  }

  function Parse(value: Option<string>): Option<Clock> {
    if value.None? || value.value == "" then None else
      var pairs := ParseComponents(Split(value.value, ','));
      if pairs.None? then None else Make(pairs.value)
  }

  /** The parser as the source runs it: one component after the other. */
  method ParseVersion(value: Option<string>) returns (r: Option<Clock>)
    ensures r == Parse(value)
  {
    if value.None? || value.value == "" {
      return None;
    }
    var components := Split(value.value, ',');
    var parts: seq<(Device, nat)> := [];
    for k := 0 to |components|
      invariant |parts| == k
      invariant forall i :: 0 <= i < k ==> ParseComponent(components[i]) == Some(parts[i])
    {
      var component := components[k];
      var colon := IndexOf(component, ':', 0);
      var counter := if colon < |component| then component[colon + 1..] else "";
      if colon == |component| || colon == 0 || !AllDigits(counter) {
        assert component in components && ParseComponent(component).None?;
        return None;
      }
      parts := parts + [(component[..colon], Value(counter))];
    }
    assert forall c :: c in components ==> ParseComponent(c).Some?;
    assert ParseComponents(components).value == parts;
    r := Make(parts);
  }

  predicate PlainDevice(d: Device) {
    ',' !in d && ':' !in d
  }

  lemma DecimalHasNoSeparator(n: nat)
    ensures ',' !in Decimal(n) && ':' !in Decimal(n)
  {
  }

  lemma ComponentRoundTrip(d: Device, n: nat)
    requires PlainDevice(d) && d != ""
    ensures ParseComponent(EncodeComponent(d, n)) == Some((d, n))
    ensures ',' !in EncodeComponent(d, n)
  {
    var c := EncodeComponent(d, n);
    DecimalHasNoSeparator(n);
    assert forall k :: 0 <= k < |d| ==> c[k] == d[k] && c[k] != ':';
    IndexOfIs(c, ':', 0, |d|);
    assert c[..|d|] == d && c[|d| + 1..] == Decimal(n);
    ValueOfDecimal(n);
  }

  lemma ParsedDeviceIsPlain(component: string)
    requires ParseComponent(component).Some? && ',' !in component
    ensures PlainDevice(ParseComponent(component).value.0)
  {
    var colon := IndexOf(component, ':', 0);
    assert ParseComponent(component).value.0 == component[..colon];
  }

  /** Everything the parser returns is written back in a form it reads. */
  lemma ParsedDevicesArePlain(s: string)
    requires Parse(Some(s)).Some?
    ensures Parse(Some(s)).value != map[]
    ensures forall d :: d in Parse(Some(s)).value ==> PlainDevice(d)
  {
    hide ParseComponent, ParseComponents, Split, Make, PlainDevice;
    var components := Split(s, ',');
    var pairs := ParseComponents(components).value;
    var v := Parse(Some(s)).value;
    assert pairs[0].0 in v;
    forall d | d in v ensures PlainDevice(d) {
      var i :| 0 <= i < |pairs| && pairs[i].0 == d;
      assert components[i] in components;
      ParsedDeviceIsPlain(components[i]);
    }
  }

  lemma PartsParse(v: Clock, devices: seq<Device>)
    requires forall d :: d in devices ==> d in v && PlainDevice(d)
    ensures var parts := EncodeParts(v, devices);
            forall i :: 0 <= i < |parts| ==> ParseComponent(parts[i]) == Some((devices[i], v[devices[i]] as nat)) && ',' !in parts[i]
  {
    hide ParseComponent;
    var parts := EncodeParts(v, devices);
    forall i | 0 <= i < |parts| ensures ParseComponent(parts[i]) == Some((devices[i], v[devices[i]] as nat)) && ',' !in parts[i] {
      ComponentRoundTrip(devices[i], v[devices[i]]);
    }
  }

  /** The written text falls apart into the written components. */
  lemma EncodedTextSplits(v: Clock)
    requires v != map[] && forall d :: d in v ==> PlainDevice(d)
    ensures Encode(v) != "" && Split(Encode(v), ',') == EncodeParts(v, Sorted(v.Keys))
  {
    hide ParseComponent, Sorted;
    var devices := Sorted(v.Keys);
    var parts := EncodeParts(v, devices);
    PartsParse(v, devices);
    assert v.Keys != {};
    SplitOfJoin(parts, ',');
    assert |parts[0]| > 0;
    assert Split("", ',') == [""];
  }

  lemma EncodedPlainClockParses(v: Clock)
    requires v != map[] && forall d :: d in v ==> PlainDevice(d)
    ensures Parse(Some(Encode(v))) == Some(v)
  {
    hide ParseComponent, ParseComponents, Sorted, Split, Make, Encode, EncodeParts, PlainDevice;
    var devices := Sorted(v.Keys);
    var parts := EncodeParts(v, devices);
    EncodedTextSplits(v);
    PartsParse(v, devices);
    var pairs := ParseComponents(parts).value;
    PairsOfClock(v, devices, pairs);
  }

  lemma PairsOfClock(v: Clock, devices: seq<Device>, pairs: seq<(Device, nat)>)
    requires Ascending(devices) && forall d :: d in devices <==> d in v
    requires |pairs| == |devices| && forall i :: 0 <= i < |pairs| ==> pairs[i] == (devices[i], v[devices[i]] as nat)
    ensures Make(pairs) == Some(v)
  {
    forall i | 0 <= i < |pairs| ensures pairs[i].0 != "" && pairs[i].1 >= 1 {
      assert devices[i] in devices;
    }
    assert DistinctDevices(pairs);
    var w := Make(pairs).value;
    forall d ensures d in w <==> d in v {
      if d in v {
        assert d in devices;
        var i :| 0 <= i < |devices| && devices[i] == d;
        assert pairs[i].0 == d;
      }
      if d in w {
        var i :| 0 <= i < |pairs| && pairs[i].0 == d;
        assert devices[i] in devices;
      }
    }
    assert w.Keys == v.Keys;
    forall d | d in v ensures w[d] == v[d] {
      var i :| 0 <= i < |pairs| && pairs[i].0 == d;
      assert pairs[i].1 == v[d];
    }
    assert w == v;
  }

  /** Writing a clock and reading it back gives the same clock exactly when it is not
      empty and no device name contains a separator. */
  lemma RoundTripExactly(v: Clock)
    ensures Parse(Some(Encode(v))) == Some(v) <==> v != map[] && forall d :: d in v ==> PlainDevice(d)
  {
    if v != map[] && forall d :: d in v ==> PlainDevice(d) {
      EncodedPlainClockParses(v);
    } else if Parse(Some(Encode(v))) == Some(v) {
      ParsedDevicesArePlain(Encode(v));
    }
  }

  /** Whatever text was accepted, one round of writing and reading changes nothing. */
  lemma ParseEncodeParse(s: string)
    requires Parse(Some(s)).Some?
    ensures Parse(Some(Encode(Parse(Some(s)).value))) == Parse(Some(s))
  {
    ParsedDevicesArePlain(s);
    EncodedPlainClockParses(Parse(Some(s)).value);
  }

  /** The text itself: devices in order, each with a colon and its counter in decimal. */
  lemma TwoDevices(d: Device, m: nat, e: Device, n: nat)
    requires d != "" && e != "" && d != e && AtMost(d, e) && m >= 1 && n >= 1
    ensures Encode(map[d := m, e := n]) == d + ":" + Decimal(m) + "," + e + ":" + Decimal(n)
  {
    var v: Clock := map[d := m, e := n];
    var devices := Sorted(v.Keys);
    assert v.Keys == {d, e};
    assert |devices| == 2;
    assert devices[0] in v.Keys && devices[1] in v.Keys && devices[0] != devices[1];
    if devices[0] == e {
      assert AtMost(e, d);
      AtMostIsTotalOrder(d, e, d);
    }
    var parts := EncodeParts(v, devices);
    assert parts == [EncodeComponent(d, m), EncodeComponent(e, n)];
    assert parts[1..] == [EncodeComponent(e, n)];
    assert Join(parts, ',') == EncodeComponent(d, m) + "," + EncodeComponent(e, n);
  }

  lemma DecimalExample()
    ensures Decimal(0) == "0" && Decimal(9) == "9" && Decimal(120) == "120"
  {
    assert Decimal(1) == "1" && Decimal(12) == "12";
  }
}
