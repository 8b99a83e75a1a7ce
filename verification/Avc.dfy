/**
The AVC sample entry's children: small boxes, exactly one of them the decoder configuration
(section 5.2.4.1 of ISO/IEC 14496-15:2010), with parameter sets of an ordinary 8-bit profile.

Each loop of the check is proved against a recursive function, and that function against the
grammar: what it accepts is exactly what can be written down as such a configuration.
*/
module Avc {
  import opened Options
  import opened Mp4

  const BASELINE := 66
  const MAIN := 77
  const HIGH := 100
  const SEQUENCE := 7
  const PICTURE := 8

  predicate Ordinary(profile: nat) {
    profile == 66 || profile == 77 || profile == 100
  }

  // ---------------------------------------------------------------- parameter sets

  /** A parameter set of the given type; a sequence parameter set repeats the profile. */
  predicate GoodUnit(u: Bytes, kind: nat, profile: nat) {
    && (if kind == 7 then 4 else 1) <= |u| < 65_536
    && u[0] % 32 == kind
    && (kind == 7 ==> u[1] == profile)
  }

  function Units(us: seq<Bytes>): Bytes {
    if us == [] then [] else Big(|us[0]|, 2) + us[0] + Units(us[1..])
  }

  predicate GoodUnits(us: seq<Bytes>, kind: nat, profile: nat) {
    forall i | 0 <= i < |us| :: GoodUnit(us[i], kind, profile)
  }

  /** What is left after so many parameter sets. */
  function Skipped(d: Bytes, count: nat, kind: nat, profile: nat): Option<Bytes> {
    if count == 0 then Some(d)
    else if |d| < 2 then None
    else
      var n := Num(d[..2]);
      if n > |d| - 2 || !GoodUnit(d[2..2 + n], kind, profile) then None
      else Skipped(d[2 + n..], count - 1, kind, profile)
  }

  lemma {:induction false} SkippedIsUnits(d: Bytes, count: nat, kind: nat, profile: nat) returns (us: seq<Bytes>)
    requires Skipped(d, count, kind, profile).Some?
    ensures |us| == count && GoodUnits(us, kind, profile) && d == Units(us) + Skipped(d, count, kind, profile).value
  {
    hide Num, Big, GoodUnit;
    us := [];
    if count > 0 {
      var n := Num(d[..2]);
      BigOfNum(d[..2]);
      var rest := SkippedIsUnits(d[2 + n..], count - 1, kind, profile);
      us := [d[2..2 + n]] + rest;
      assert us[1..] == rest;
      assert d == d[..2] + d[2..2 + n] + d[2 + n..];
      forall i | 0 <= i < |us| ensures GoodUnit(us[i], kind, profile) {
        if i > 0 { assert us[i] == rest[i - 1]; }
      }
    }
  }

  lemma {:induction false} UnitsAreSkipped(us: seq<Bytes>, left: Bytes, kind: nat, profile: nat)
    requires GoodUnits(us, kind, profile)
    ensures Skipped(Units(us) + left, |us|, kind, profile) == Some(left)
  {
    hide Num, Big;
    if us == [] {
      assert Units(us) + left == left;
    } else {
      assert GoodUnit(us[0], kind, profile);
      Sizes();
      NumOfBig(|us[0]|, 2);
      var d := Units(us) + left;
      assert d[..2] == Big(|us[0]|, 2) && d[2..2 + |us[0]|] == us[0];
      assert d[2 + |us[0]|..] == Units(us[1..]) + left;
      forall i | 0 <= i < |us[1..]| ensures GoodUnit(us[1..][i], kind, profile) { assert us[1..][i] == us[i + 1]; }
      UnitsAreSkipped(us[1..], left, kind, profile);
    }
  }

  method Skip(d: Bytes, count: nat, kind: nat, profile: nat) returns (left: Option<Bytes>)
    ensures left == Skipped(d, count, kind, profile)
  {
    var config := d;
    for i := 0 to count
      invariant Skipped(d, count, kind, profile) == Skipped(config, count - i, kind, profile)
    {
      if |config| < 2 { return None; }
      var n := Num(config[..2]);
      Sizes();
      BigOfNum(config[..2]);
      config := config[2..];
      if n > |config| || n < 1 || config[0] % 32 != kind { return None; }
      if kind == SEQUENCE && (n < 4 || config[1] != profile) { return None; }
      config := config[n..];
    }
    left := Some(config);
  }

  // ---------------------------------------------------------------- the configuration record

  datatype Configuration = Configuration(
    profile: Byte, compatibility: Byte, level: Byte, lengthSize: Byte, sequenceCount: Byte,
    sequences: seq<Bytes>, pictures: seq<Bytes>, tail: Bytes)

  predicate GoodConfiguration(c: Configuration) {
    && Ordinary(c.profile)
    && |c.sequences| == c.sequenceCount % 32 > 0 && GoodUnits(c.sequences, 7, c.profile)
    && 0 < |c.pictures| < 256 && GoodUnits(c.pictures, 8, c.profile)
  }

  function Record(c: Configuration): Bytes
    requires |c.pictures| < 256
  {
    [1, c.profile, c.compatibility, c.level, c.lengthSize,
        c.sequenceCount] + Units(c.sequences) + ([|c.pictures|] + Units(c.pictures) + c.tail)
  }

  predicate Supported(config: Bytes) {
    && |config| >= 7 && config[0] == 1 && Ordinary(config[1]) && config[5] % 32 > 0
    && var left := Skipped(config[6..], config[5] % 32, SEQUENCE, config[1]);
       && left.Some? && left.value != [] && left.value[0] > 0
       && Skipped(left.value[1..], left.value[0], PICTURE, config[1]).Some?
  }

  /** The check accepts exactly the records of good configurations. */
  lemma SupportedIsRecord(config: Bytes) returns (c: Configuration)
    requires Supported(config)
    ensures GoodConfiguration(c) && Record(c) == config
  {
    hide Skipped, Units, GoodUnits;
    var sequences := SkippedIsUnits(config[6..], config[5] % 32, SEQUENCE, config[1]);
    var left := Skipped(config[6..], config[5] % 32, SEQUENCE, config[1]).value;
    var pictures := SkippedIsUnits(left[1..], left[0], PICTURE, config[1]);
    var tail := Skipped(left[1..], left[0], PICTURE, config[1]).value;
    c := Configuration(config[1], config[2], config[3], config[4], config[5], sequences, pictures, tail);
    assert left == [left[0]] + left[1..];
    assert config == config[..6] + config[6..];
    assert config[..6] == [1, c.profile, c.compatibility, c.level, c.lengthSize, c.sequenceCount];
  }

  lemma RecordIsSupported(c: Configuration)
    requires GoodConfiguration(c)
    ensures Supported(Record(c))
  {
    hide Skipped, Units, GoodUnits;
    var config := Record(c);
    var after := [|c.pictures|] + Units(c.pictures) + c.tail;
    assert config[6..] == Units(c.sequences) + after;
    UnitsAreSkipped(c.sequences, after, SEQUENCE, c.profile);
    assert after[1..] == Units(c.pictures) + c.tail;
    UnitsAreSkipped(c.pictures, c.tail, PICTURE, c.profile);
  }

  // ---------------------------------------------------------------- the children of the sample entry

  datatype Child = Child(tag: Bytes, body: Bytes)

  predicate GoodChild(c: Child) {
    |c.tag| == 4 && 8 + |c.body| < Limit(4)
  }

  function Children(cs: seq<Child>): Bytes {
    if cs == [] then [] else Big(8 + |cs[0].body|, 4) + cs[0].tag + cs[0].body + Children(cs[1..])
  }

  /** How many of the children are configurations, if all of those are supported. */
  predicate OneConfiguration(cs: seq<Child>, found: bool) {
    if cs == [] then found
    else if cs[0].tag == AVCC then !found && Supported(cs[0].body) && OneConfiguration(cs[1..], true)
    else OneConfiguration(cs[1..], found)
  }

  predicate Accepted(d: Bytes, found: bool) {
    if d == [] then found
    else if |d| < 8 then false
    else
      var n := Num(d[..4]);
      if n < 8 || n > |d| then false
      else if d[4..8] == AVCC then !found && Supported(d[8..n]) && Accepted(d[n..], true)
      else Accepted(d[n..], found)
  }

  lemma {:induction false} AcceptedIsChildren(d: Bytes, found: bool) returns (cs: seq<Child>)
    requires Accepted(d, found)
    ensures Children(cs) == d && OneConfiguration(cs, found) && forall i | 0 <= i < |cs| :: GoodChild(cs[i])
  {
    hide Num, Big, Supported, Limit;
    cs := [];
    if d != [] {
      var n := Num(d[..4]);
      BigOfNum(d[..4]);
      var rest := AcceptedIsChildren(d[n..], found || d[4..8] == AVCC);
      cs := [Child(d[4..8], d[8..n])] + rest;
      assert cs[1..] == rest;
      assert d == d[..4] + d[4..8] + d[8..n] + d[n..];
      forall i | 0 <= i < |cs| ensures GoodChild(cs[i]) {
        if i > 0 { assert cs[i] == rest[i - 1]; }
      }
    }
  }

  lemma {:induction false} ChildrenAreAccepted(cs: seq<Child>, found: bool)
    requires OneConfiguration(cs, found) && forall i | 0 <= i < |cs| :: GoodChild(cs[i])
    ensures Accepted(Children(cs), found)
  {
    hide Num, Big, Supported, Limit;
    if cs != [] {
      assert GoodChild(cs[0]);
      var n := 8 + |cs[0].body|;
      NumOfBig(n, 4);
      var d := Children(cs);
      assert d[..4] == Big(n, 4) && d[4..8] == cs[0].tag && d[8..n] == cs[0].body && d[n..] == Children(cs[1..]);
      forall i | 0 <= i < |cs[1..]| ensures GoodChild(cs[1..][i]) { assert cs[1..][i] == cs[i + 1]; }
      ChildrenAreAccepted(cs[1..], found || cs[0].tag == AVCC);
    }
  }

  method CheckConfiguration(config: Bytes) returns (ok: bool)
    ensures ok <==> Supported(config)
  {
    if |config| < 7 || config[0] != 1
        || (config[1] != BASELINE && config[1] != MAIN && config[1] != HIGH) { return false; }
    var count := config[5] % 32;
    if count == 0 { return false; }
    var left := Skip(config[6..], count, SEQUENCE, config[1]);
    if left.None? || left.value == [] || left.value[0] == 0 { return false; }
    left := Skip(left.value[1..], left.value[0], PICTURE, config[1]);
    ok := left.Some?;
  }

  method SupportedAvcConfiguration(children: Bytes) returns (ok: bool)
    ensures ok <==> Accepted(children, false)
  {
    hide Supported;
    var left, found := children, false;
    while left != []
      invariant Accepted(children, false) == Accepted(left, found)
      decreases |left|
    {
      if |left| < 8 { return false; }
      var size := Num(left[..4]);
      if size < 8 || size > |left| { return false; }
      if left[4..8] == AVCC {
        if found { return false; }
        found := true;
        var supported := CheckConfiguration(left[8..size]);
        if !supported { return false; }
      }
      left := left[size..];
    }
    ok := found;
  }
}
