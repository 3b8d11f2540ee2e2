/** Input-device listing (src-tauri/src/modules/audio/devices.rs): the
    friendly display name of a raw device name, the `Display` text, the
    de-duplication of display names, and the lookup by exact name. The audio
    host is replaced by the list of devices it enumerates. */
module Devices {
  import opened Wrappers
  import opened Seqs
  import opened Strings

  datatype AudioDeviceInfo = AudioDeviceInfo(name: string, displayName: string, isDefault: bool, sampleRate: nat, channels: nat)

  /** What the host reports for one input device: its name and its default
      input configuration (sample rate, channels), either of which can fail. */
  datatype RawDevice = RawDevice(name: Option<string>, config: Option<(nat, nat)>)

  const CardKey: string := "CARD="
  const FallbackSampleRate: nat := 44100
  const FallbackChannels: nat := 2

  predicate IsCardStop(c: char)
  {
    c == ',' || c == ']'
  }

  /** `s.split([',', ']']).next()`: the text before the first ',' or ']'. */
  function BeforeStop(s: string): (r: string)
    ensures IsPrefix(r, s)
    ensures forall k :: 0 <= k < |r| ==> !IsCardStop(s[k])
    ensures |r| == |s| || IsCardStop(s[|r|])
  {
    match FirstIndex(s, IsCardStop)
    case Some(k) => s[..k]
    case None => s
  }

  /** `s.split("CARD=").next()`: the text before the next "CARD=". */
  function BeforeCardKey(s: string): (r: string)
    ensures IsPrefix(r, s)
    ensures forall k :: 0 <= k < |r| ==> !OccursAt(s, CardKey, k)
    ensures |r| == |s| || OccursAt(s, CardKey, |r|)
  {
    match Find(s, CardKey)
    case Some(j) => s[..j]
    case None => s
  }

  /** `friendly_name`: the name shown for a raw device name. Only the two
      fixed names can be longer than the raw name; `FriendlyNameCases`
      gives the full case split. */
  function FriendlyName(raw: string): (r: string)
    ensures r == "Default Device" || r == "PulseAudio" || |r| <= |raw|
  {
    var lower := Lower(raw);
    if lower == "default" then "Default Device"
    else if lower == "pulse" then "PulseAudio"
    else if IsPrefix("hw:", lower) then HwName(raw)
    else raw
  }

  /** "default" and "pulse", in any letter case, get fixed names; names
      starting with "hw:", in any letter case, are shown by `HwName`; every
      other name is shown as it is. */
  lemma FriendlyNameCases(raw: string)
    ensures Lower(raw) == "default" ==> FriendlyName(raw) == "Default Device"
    ensures Lower(raw) == "pulse" ==> FriendlyName(raw) == "PulseAudio"
    ensures IsPrefix("hw:", Lower(raw)) ==> FriendlyName(raw) == HwName(raw)
    ensures Lower(raw) != "default" && Lower(raw) != "pulse" && !IsPrefix("hw:", Lower(raw)) ==> FriendlyName(raw) == raw
  {
    if IsPrefix("hw:", Lower(raw)) {
      assert Lower(raw)[0] == 'h';
    }
  }

  /** The name shown for an "hw:" device. It is never longer than the raw
      name; `HwNameCases` gives its two cases. */
  function HwName(raw: string): (r: string)
    ensures |r| <= |raw|
  {
    match Find(raw, CardKey)
    case Some(i) => CardName(raw[i + |CardKey|..])
    case None => raw
  }

  /** With a first "CARD=" at `i`, the card name after it is shown; without
      "CARD=", the raw name is. */
  lemma HwNameCases(raw: string)
    ensures Find(raw, CardKey).Some? ==>
      var i := Find(raw, CardKey).value;
      i + |CardKey| <= |raw| && HwName(raw) == CardName(raw[i + |CardKey|..])
    ensures !Contains(raw, CardKey) ==> HwName(raw) == raw
  {
    if !Contains(raw, CardKey) {
      match Find(raw, CardKey)
      case Some(_) => assert false;
      case None =>
    }
  }

  /** The card name taken from the text after the first "CARD=". */
  function CardName(rest: string): (r: string)
    ensures IsPrefix(r, rest)
  {
    BeforeStop(BeforeCardKey(rest))
  }

  /** The card name is the longest start of `rest` that holds no ',' or ']'
      and reaches no further "CARD=". */
  lemma CardNameLongest(rest: string)
    ensures var r := CardName(rest);
      && IsPrefix(r, rest)
      && (forall k :: 0 <= k < |r| ==> !IsCardStop(rest[k]) && !OccursAt(rest, CardKey, k))
      && (|r| == |rest| || IsCardStop(rest[|r|]) || OccursAt(rest, CardKey, |r|))
  {
    var piece := BeforeCardKey(rest);
    var r := BeforeStop(piece);
    forall k | 0 <= k < |r|
      ensures !IsCardStop(rest[k]) && !OccursAt(rest, CardKey, k)
    {
      assert rest[k] == piece[k];
    }
    if |r| < |piece| {
      assert rest[|r|] == piece[|r|];
    }
  }

  /** An illustration of `FriendlyNameCases` on the default device's name. */
  lemma FriendlyNameOfDefault()
    ensures FriendlyName("DEFAULT") == "Default Device"
  {
    assert Lower("DEFAULT") == "default";
  }

  /** The `Display` text: the display name, with " (Default)" appended
      exactly for the default device. */
  function DisplayText(d: AudioDeviceInfo): (r: string)
    ensures IsPrefix(d.displayName, r)
    ensures d.isDefault <==> |r| > |d.displayName|
    ensures d.isDefault ==> r[|d.displayName|..] == " (Default)"
  {
    d.displayName + if d.isDefault then " (Default)" else ""
  }

  /** How many times `x` occurs in `s`. */
  function Count(s: seq<string>, x: string): nat
  {
    if s == [] then 0 else Count(s[..|s| - 1], x) + if s[|s| - 1] == x then 1 else 0
  }

  /** The name `i` gets from de-duplication: unchanged for the first
      occurrence of its original name, "name (k)" for occurrence k + 1. */
  function DedupName(names: seq<string>, i: nat): string
    requires i < |names|
  {
    var k := Count(names[..i], names[i]);
    if k == 0 then names[i] else names[i] + " (" + NatToDecimal(k) + ")"
  }

  function DisplayNames(devices: seq<AudioDeviceInfo>): (r: seq<string>)
    ensures |r| == |devices|
    ensures forall i :: 0 <= i < |devices| ==> r[i] == devices[i].displayName
  {
    seq(|devices|, i requires 0 <= i < |devices| => devices[i].displayName)
  }

  lemma CountSnoc(s: seq<string>, i: nat, x: string)
    requires i < |s|
    ensures Count(s[..i + 1], x) == Count(s[..i], x) + if s[i] == x then 1 else 0
  {
    assert s[..i + 1][..i] == s[..i];
  }

  /** `counts` holds, for every name, how often it occurs in `seen`. */
  ghost predicate CountsOf(counts: map<string, nat>, seen: seq<string>)
  {
    (forall x :: x in counts ==> counts[x] == Count(seen, x))
    && (forall x :: x !in counts ==> Count(seen, x) == 0)
  }

  /** One step of the de-duplication loop keeps the count table in step
      with the names seen so far. */
  lemma CountsAfter(names: seq<string>, i: nat, counts: map<string, nat>)
    requires i < |names| && CountsOf(counts, names[..i])
    ensures var seen := if names[i] in counts then counts[names[i]] else 0;
      && seen == Count(names[..i], names[i])
      && CountsOf(counts[names[i] := seen + 1], names[..i + 1])
  {
    forall y ensures Count(names[..i + 1], y) == Count(names[..i], y) + if names[i] == y then 1 else 0 {
      CountSnoc(names, i, y);
    }
  }

  /** The de-duplication loop of `get_input_devices`: a count per original
      display name, and the suffix " (k)" on every repeat. */
  method Deduplicate(devices: seq<AudioDeviceInfo>) returns (r: seq<AudioDeviceInfo>)
    ensures |r| == |devices|
    ensures forall i :: 0 <= i < |devices| ==>
      r[i] == devices[i].(displayName := DedupName(DisplayNames(devices), i))
  {
    var counts: map<string, nat> := map[];
    r := [];
    var i := 0;
    while i < |devices|
      invariant 0 <= i <= |devices| && |r| == i
      invariant RenamedPrefix(devices, r)
      invariant CountsOf(counts, DisplayNames(devices)[..i])
    {
      var x := devices[i].displayName;
      var seen := if x in counts then counts[x] else 0;
      var d := devices[i];
      if seen + 1 > 1 {
        d := d.(displayName := x + " (" + NatToDecimal(seen) + ")");
      }
      DedupStep(devices, r, counts);
      r := r + [d];
      counts := counts[x := seen + 1];
      i := i + 1;
    }
  }

  /** `r` is the de-duplicated form of the first `|r|` devices. */
  ghost predicate RenamedPrefix(devices: seq<AudioDeviceInfo>, r: seq<AudioDeviceInfo>)
  {
    |r| <= |devices|
    && forall j :: 0 <= j < |r| ==> r[j] == devices[j].(displayName := DedupName(DisplayNames(devices), j))
  }

  /** One pass of the de-duplication loop keeps both of its invariants. */
  lemma DedupStep(devices: seq<AudioDeviceInfo>, r: seq<AudioDeviceInfo>, counts: map<string, nat>)
    requires |r| < |devices| && RenamedPrefix(devices, r)
    requires CountsOf(counts, DisplayNames(devices)[..|r|])
    ensures var x := devices[|r|].displayName;
      var seen := if x in counts then counts[x] else 0;
      var d := if seen + 1 > 1 then devices[|r|].(displayName := x + " (" + NatToDecimal(seen) + ")") else devices[|r|];
      && RenamedPrefix(devices, r + [d])
      && CountsOf(counts[x := seen + 1], DisplayNames(devices)[..|r| + 1])
  {
    var names := DisplayNames(devices);
    var i := |r|;
    CountsAfter(names, i, counts);
    var x := devices[i].displayName;
    var seen := if x in counts then counts[x] else 0;
    var d := if seen + 1 > 1 then devices[i].(displayName := x + " (" + NatToDecimal(seen) + ")") else devices[i];
    assert d == devices[i].(displayName := DedupName(names, i));
    var r' := r + [d];
    forall j | 0 <= j < |r'| ensures r'[j] == devices[j].(displayName := DedupName(names, j)) {
      if j < i {
        assert r'[j] == r[j];
      }
    }
  }

  /** Renaming keeps the first occurrence of each name. */
  lemma FirstOccurrenceKept(names: seq<string>, i: nat)
    requires i < |names|
    requires forall j :: 0 <= j < i ==> names[j] != names[i]
    ensures DedupName(names, i) == names[i]
  {
    CountAbsent(names[..i], names[i]);
  }

  lemma {:induction false} CountAbsent(s: seq<string>, x: string)
    requires forall j :: 0 <= j < |s| ==> s[j] != x
    ensures Count(s, x) == 0
  {
    if s != [] {
      CountAbsent(s[..|s| - 1], x);
    }
  }

  lemma {:induction false} CountGrows(s: seq<string>, i: nat, j: nat)
    requires i < j <= |s|
    ensures Count(s[..i], s[i]) < Count(s[..j], s[i])
    decreases j
  {
    CountSnoc(s, j - 1, s[i]);
    if i < j - 1 {
      CountGrows(s, i, j - 1);
    }
  }

  /** Two devices sharing an original display name always end up with
      different names. */
  lemma SameNameSeparated(names: seq<string>, i: nat, j: nat)
    requires i < j < |names| && names[i] == names[j]
    ensures DedupName(names, i) != DedupName(names, j)
  {
    var x := names[i];
    var ki := Count(names[..i], x);
    var kj := Count(names[..j], x);
    CountGrows(names, i, j);
    if DedupName(names, i) == DedupName(names, j) {
      var a := DedupName(names, j);
      assert a[..|x| + 2] == x + " (";
      if ki == 0 {
        assert false;
      } else {
        var di := NatToDecimal(ki);
        var dj := NatToDecimal(kj);
        assert |di| == |dj|;
        assert a[|x| + 2..|x| + 2 + |di|] == di;
        assert a[|x| + 2..|x| + 2 + |dj|] == dj;
        NatToDecimalInjective(ki, kj);
        assert false;
      }
    }
  }

  /** Different original names can still collide: counts are kept per
      original name, so a device already called "Mic (1)" clashes with the
      renamed second "Mic". */
  lemma NamesCanCollide()
    ensures var names := ["Mic", "Mic", "Mic (1)"];
      DedupName(names, 1) == "Mic (1)" && DedupName(names, 2) == "Mic (1)"
  {
    var names := ["Mic", "Mic", "Mic (1)"];
    assert names[..1] == ["Mic"] && names[..1][..0] == [];
    assert Count(names[..1], "Mic") == 1;
    assert names[..2] == ["Mic", "Mic"];
    CountAbsent(names[..2], "Mic (1)");
  }

  /** The devices `get_input_devices` lists before de-duplication: one per
      device whose name could be read, in enumeration order, with the
      default configuration when the device's own cannot be read. */
  function Listed(raws: seq<RawDevice>, defaultName: string): seq<AudioDeviceInfo>
  {
    if raws == [] then []
    else
      var last := raws[|raws| - 1];
      Listed(raws[..|raws| - 1], defaultName)
      + if last.name.Some? then
          var name := last.name.value;
          var (rate, channels) := if last.config.Some? then last.config.value else (FallbackSampleRate, FallbackChannels);
          [AudioDeviceInfo(name, FriendlyName(name), name == defaultName, rate, channels)]
        else []
  }

  /** `d` carries what `get_input_devices` reports for the readable device
      `raw`: its name, the friendly display name, whether it is the default,
      and its configuration or the 44100 Hz stereo fallback. */
  predicate BuiltFrom(d: AudioDeviceInfo, raw: RawDevice, defaultName: string)
  {
    && raw.name == Some(d.name)
    && d.displayName == FriendlyName(d.name)
    && (d.isDefault <==> d.name == defaultName)
    && (raw.config.None? ==> d.sampleRate == FallbackSampleRate && d.channels == FallbackChannels)
    && (raw.config.Some? ==> (d.sampleRate, d.channels) == raw.config.value)
  }

  /** Every listed device is built from a readable device of the
      enumeration, and there are no more of them than devices. */
  lemma {:induction false} ListedFromEnumeration(raws: seq<RawDevice>, defaultName: string)
    ensures var l := Listed(raws, defaultName);
      |l| <= |raws| && forall i :: 0 <= i < |l| ==> exists j :: 0 <= j < |raws| && BuiltFrom(l[i], raws[j], defaultName)
  {
    if raws != [] {
      var n := |raws|;
      var front := raws[..n - 1];
      ListedFromEnumeration(front, defaultName);
      var l := Listed(raws, defaultName);
      var lf := Listed(front, defaultName);
      assert l[..|lf|] == lf;
      forall i | 0 <= i < |l|
        ensures exists j :: 0 <= j < |raws| && BuiltFrom(l[i], raws[j], defaultName)
      {
        if i < |lf| {
          var j :| 0 <= j < |front| && BuiltFrom(lf[i], front[j], defaultName);
          assert raws[j] == front[j];
        } else {
          assert BuiltFrom(l[i], raws[n - 1], defaultName);
        }
      }
    }
  }

  /** When every name can be read, the list follows the enumeration one to
      one, entry `j` built from device `j`. */
  lemma {:induction false} ListedAllReadable(raws: seq<RawDevice>, defaultName: string)
    requires forall j :: 0 <= j < |raws| ==> raws[j].name.Some?
    ensures var l := Listed(raws, defaultName);
      && |l| == |raws|
      && forall j :: 0 <= j < |raws| ==>
        && l[j].name == raws[j].name.value
        && l[j].displayName == FriendlyName(raws[j].name.value)
        && (l[j].isDefault <==> raws[j].name.value == defaultName)
        && (raws[j].config.None? ==> l[j].sampleRate == FallbackSampleRate && l[j].channels == FallbackChannels)
        && (raws[j].config.Some? ==> (l[j].sampleRate, l[j].channels) == raws[j].config.value)
  {
    if raws != [] {
      var n := |raws|;
      var front := raws[..n - 1];
      forall j | 0 <= j < |front|
        ensures front[j].name.Some?
      {
        assert front[j] == raws[j];
      }
      ListedAllReadable(front, defaultName);
      var l, lf := Listed(raws, defaultName), Listed(front, defaultName);
      assert |l| == |lf| + 1 && l[..n - 1] == lf;
      forall j | 0 <= j < n
        ensures BuiltFrom(l[j], raws[j], defaultName)
      {
        if j < n - 1 {
          assert l[j] == lf[j] && front[j] == raws[j];
        } else {
          assert BuiltFrom(l[j], raws[n - 1], defaultName);
        }
      }
    }
  }

  /** `get_input_devices`: `enumeration` is `None` when the host cannot list
      its input devices; `defaultName` is the default device's name, or ""
      when it has none. */
  method GetInputDevices(enumeration: Option<seq<RawDevice>>, defaultName: string) returns (r: Result<seq<AudioDeviceInfo>>)
    ensures enumeration.None? <==> r.Err?
    ensures r.Ok? ==> var l := Listed(enumeration.value, defaultName);
      && |r.value| == |l|
      && forall i :: 0 <= i < |l| ==> r.value[i] == l[i].(displayName := DedupName(DisplayNames(l), i))
  {
    if enumeration.None? {
      return Err("input devices could not be enumerated");
    }
    var raws := enumeration.value;
    var devices: seq<AudioDeviceInfo> := [];
    var i := 0;
    while i < |raws|
      invariant 0 <= i <= |raws|
      invariant devices == Listed(raws[..i], defaultName)
    {
      assert raws[..i + 1][..i] == raws[..i];
      var raw := raws[i];
      if raw.name.Some? {
        var name := raw.name.value;
        var isDefault := name == defaultName;
        var rate, channels := FallbackSampleRate, FallbackChannels;
        if raw.config.Some? {
          rate, channels := raw.config.value.0, raw.config.value.1;
        }
        devices := devices + [AudioDeviceInfo(name, FriendlyName(name), isDefault, rate, channels)];
      }
      i := i + 1;
    }
    assert raws[..|raws|] == raws;
    var deduped := Deduplicate(devices);
    r := Ok(deduped);
  }

  /** `get_device_by_name`: the index of the first device whose name reads
      back equal to `name`, `None` when there is none, and an error when the
      host cannot enumerate. */
  method GetDeviceByName(enumeration: Option<seq<RawDevice>>, name: string) returns (r: Result<Option<nat>>)
    ensures enumeration.None? <==> r.Err?
    ensures r.Ok? && r.value.Some? ==> var k := r.value.value;
      k < |enumeration.value| && enumeration.value[k].name == Some(name)
      && forall j :: 0 <= j < k ==> enumeration.value[j].name != Some(name)
    ensures r.Ok? && r.value.None? ==> forall j :: 0 <= j < |enumeration.value| ==> enumeration.value[j].name != Some(name)
  {
    if enumeration.None? {
      return Err("input devices could not be enumerated");
    }
    var raws := enumeration.value;
    var i := 0;
    while i < |raws|
      invariant 0 <= i <= |raws|
      invariant forall j :: 0 <= j < i ==> raws[j].name != Some(name)
    {
      if raws[i].name.Some? && raws[i].name.value == name {
        return Ok(Some(i));
      }
      i := i + 1;
    }
    r := Ok(None);
  }
}
