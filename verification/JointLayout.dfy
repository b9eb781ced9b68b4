/** The bridge's motor layout: where it comes from, and the joint states made with it. */
module JointLayout {
  import opened Wrappers

  /** `static_cast<std::uint32_t>`. */
  const U32: int := 0x1_0000_0000

  /** The range of `std::size_t`, in which the limb sizes are added up. */
  const SIZE: int := 0x1_0000_0000_0000_0000

  datatype Key = Key(limb: nat, joint: nat)
  datatype Entry = Entry(key: Key, name: string)

  predicate KeyLess(a: Key, b: Key) {
    a.limb < b.limb || (a.limb == b.limb && a.joint < b.joint)
  }

  predicate StrictlyIncreasing(layout: seq<Entry>) {
    forall i, j :: 0 <= i < j < |layout| ==> KeyLess(layout[i].key, layout[j].key)
  }

  // ---------- the fallback layout ----------

  function Sum(sizes: seq<int>): int {
    if sizes == [] then 0 else sizes[0] + Sum(sizes[1..])
  }

  predicate AllPositive(sizes: seq<int>) {
    forall i :: 0 <= i < |sizes| ==> sizes[i] > 0
  }

  /** The limb and joint that own slot i. */
  function Locate(sizes: seq<int>, i: nat): (r: (nat, nat))
    requires AllPositive(sizes) && i < Sum(sizes)
    ensures r.0 < |sizes| && r.1 < sizes[r.0]
  {
    if i < sizes[0] then (0, i)
    else var (limb, joint) := Locate(sizes[1..], i - sizes[0]); (limb + 1, joint)
  }

  lemma {:induction false} SumIsPositive(sizes: seq<int>)
    requires AllPositive(sizes)
    ensures Sum(sizes) >= |sizes|
  {
    if sizes != [] {
      SumIsPositive(sizes[1..]);
    }
  }

  lemma {:induction false} SumSplits(sizes: seq<int>, l: nat)
    requires l <= |sizes|
    ensures Sum(sizes) == Sum(sizes[..l]) + Sum(sizes[l..])
  {
    if l == 0 {
      assert sizes[0..] == sizes;
    } else {
      SumSplits(sizes[1..], l - 1);
      assert sizes[1..][..l - 1] == sizes[..l][1..];
      assert sizes[1..][l - 1..] == sizes[l..];
    }
  }

  /** Slot prefixSum(l) + j belongs to limb l, joint j. */
  lemma {:induction false} SlotOf(sizes: seq<int>, l: nat, j: nat)
    requires AllPositive(sizes) && l < |sizes| && j < sizes[l]
    ensures 0 <= Sum(sizes[..l]) && Sum(sizes[..l]) + j < Sum(sizes)
    ensures Locate(sizes, Sum(sizes[..l]) + j) == (l, j)
  {
    SumIsPositive(sizes[1..]);
    if l > 0 {
      SlotOf(sizes[1..], l - 1, j);
      assert sizes[..l][1..] == sizes[1..][..l - 1];
    }
  }

  lemma {:induction false} LocateIncreases(sizes: seq<int>, i: nat, j: nat)
    requires AllPositive(sizes) && i < j < Sum(sizes)
    ensures var (a, b) := (Locate(sizes, i), Locate(sizes, j)); a.0 < b.0 || (a.0 == b.0 && a.1 < b.1)
  {
    if i >= sizes[0] {
      LocateIncreases(sizes[1..], i - sizes[0], j - sizes[0]);
    }
  }

  function SlotEntry(sizes: seq<int>, names: seq<string>, i: nat): Entry
    requires AllPositive(sizes) && i < |names| <= Sum(sizes)
  {
    var (limb, joint) := Locate(sizes, i);
    Entry(Key(limb % U32, joint % U32), names[i])
  }

  function FallbackLayout(sizes: seq<int>, names: seq<string>): seq<Entry>
    requires AllPositive(sizes) && Sum(sizes) == |names|
  {
    seq(|names|, i requires 0 <= i < |names| => SlotEntry(sizes, names, i))
  }

  predicate AllNamed(names: seq<string>) {
    forall i :: 0 <= i < |names| ==> names[i] != ""
  }

  /** The parameters describe a layout: one name for every slot (and no more than a vector can
      hold). */
  predicate FallbackUsable(sizes: seq<int>, names: seq<string>) {
    AllPositive(sizes) && 0 < Sum(sizes) == |names| < SIZE && AllNamed(names)
  }

  /** The guard of the fallback: the sum it compares wraps around. */
  predicate GuardPasses(sizes: seq<int>, names: seq<string>) {
    AllPositive(sizes) && 0 < Sum(sizes) % SIZE == |names|
  }

  /** Limb sizes that pass the guard only because their sum wraps: the names run out. */
  predicate RunsOut(sizes: seq<int>, names: seq<string>) {
    GuardPasses(sizes, names) && AllNamed(names) && Sum(sizes) >= SIZE
  }

  /** What passes the guard describes a layout if and only if the sum of the limb sizes fits. */
  lemma GuardIsSoundIff(sizes: seq<int>, names: seq<string>)
    requires GuardPasses(sizes, names) && AllNamed(names)
    ensures FallbackUsable(sizes, names) <==> Sum(sizes) < SIZE
    ensures RunsOut(sizes, names) <==> Sum(sizes) > |names|
  {
    SumIsPositive(sizes);
  }

  /** Three limbs and one name that pass the guard: two of the sizes are the greatest int64. */
  lemma WrappedLayoutExample()
    ensures var sizes := [0x7fff_ffff_ffff_ffff, 0x7fff_ffff_ffff_ffff, 3];
      GuardPasses(sizes, ["hip"]) && RunsOut(sizes, ["hip"]) && !FallbackUsable(sizes, ["hip"])
  {
    var m := 0x7fff_ffff_ffff_ffff;
    assert [m, m, 3][1..] == [m, 3] && [m, 3][1..] == [3] && [3][1..] == [];
    assert Sum([3]) == 3 && Sum([m, 3]) == m + 3 && Sum([m, m, 3]) == m + m + 3;
  }

  /** The fallback layout has one entry for every name, in order, and gives limb l, joint j the
      name prefixSum(l) + j. */
  lemma FallbackMapsSlots(sizes: seq<int>, names: seq<string>, l: nat, j: nat)
    requires AllPositive(sizes) && Sum(sizes) == |names| && l < |sizes| && j < sizes[l]
    ensures var layout, slot := FallbackLayout(sizes, names), Sum(sizes[..l]) + j;
      |layout| == |names| && 0 <= slot < |names| && layout[slot] == Entry(Key(l % U32, j % U32), names[slot])
  {
    SlotOf(sizes, l, j);
  }

  /** The first pass: the number of names the limb sizes ask for, wrapped, or None for a bad
      size. */
  method CountSlots(sizes: seq<int>) returns (expected: Option<nat>)
    ensures expected.Some? <==> AllPositive(sizes)
    ensures expected.Some? ==> expected.value == Sum(sizes) % SIZE
  {
    var sum := 0;
    for i := 0 to |sizes|
      invariant AllPositive(sizes[..i]) && sum == Sum(sizes[..i]) % SIZE
    {
      if sizes[i] <= 0 {
        return None;
      }
      SumSnoc(sizes, i);
      sum := (sum + sizes[i]) % SIZE;
    }
    assert sizes[..|sizes|] == sizes;
    return Some(sum);
  }

  lemma SumSnoc(sizes: seq<int>, i: nat)
    requires i < |sizes|
    ensures Sum(sizes[..i + 1]) == Sum(sizes[..i]) + sizes[i]
  {
    SumSplits(sizes[..i + 1], i);
    assert sizes[..i + 1][..i] == sizes[..i] && sizes[..i + 1][i..] == [sizes[i]];
  }

  /** The second pass's outcome: a layout, an empty name, or a read past the last name. */
  datatype Filled = Layout(entries: seq<Entry>) | EmptyName | PastTheEnd

  /** The second pass: one entry per limb and joint. */
  method FillSlots(sizes: seq<int>, names: seq<string>) returns (filled: Filled)
    requires AllPositive(sizes) && |names| <= Sum(sizes)
    ensures filled.EmptyName? <==> !AllNamed(names)
    ensures filled.PastTheEnd? <==> AllNamed(names) && |names| < Sum(sizes)
    ensures filled.Layout? ==> filled.entries == FallbackLayout(sizes, names)
  {
    var parsed: seq<Entry> := [];
    var nameIndex := 0;
    for limb := 0 to |sizes|
      invariant nameIndex == |parsed| == Sum(sizes[..limb]) <= |names|
      invariant Filling(sizes, names, parsed)
    {
      SlotOf(sizes, limb, sizes[limb] - 1);
      for joint := 0 to sizes[limb]
        invariant nameIndex == |parsed| == Sum(sizes[..limb]) + joint <= |names|
        invariant Filling(sizes, names, parsed)
      {
        SlotOf(sizes, limb, joint);
        if nameIndex == |names| {
          return PastTheEnd;
        }
        var name := names[nameIndex];
        if name == "" {
          return EmptyName;
        }
        parsed := parsed + [Entry(Key(limb % U32, joint % U32), name)];
        nameIndex := nameIndex + 1;
      }
      SumSnoc(sizes, limb);
    }
    assert sizes[..|sizes|] == sizes;
    return Layout(parsed);
  }

  /** The entries of the first slots, none of them unnamed. */
  predicate Filling(sizes: seq<int>, names: seq<string>, parsed: seq<Entry>)
    requires AllPositive(sizes) && |names| <= Sum(sizes)
  {
    |parsed| <= |names|
    && forall i :: 0 <= i < |parsed| ==> names[i] != "" && parsed[i] == SlotEntry(sizes, names, i)
  }

  predicate FitsU32(sizes: seq<int>) {
    |sizes| <= U32 && forall l :: 0 <= l < |sizes| ==> sizes[l] <= U32
  }

  lemma SlotKeysIncrease(sizes: seq<int>, names: seq<string>, i: nat, j: nat)
    requires AllPositive(sizes) && Sum(sizes) == |names| && i < j < |names| && FitsU32(sizes)
    ensures KeyLess(SlotEntry(sizes, names, i).key, SlotEntry(sizes, names, j).key)
  {
    hide Sum;
    LocateIncreases(sizes, i, j);
    var a, b := Locate(sizes, i), Locate(sizes, j);
    assert a.0 % U32 == a.0 && a.1 % U32 == a.1 && b.0 % U32 == b.0 && b.1 % U32 == b.1;
  }

  /** The keys are strictly increasing - so each joint has its own entry - exactly when limb and
      joint numbers fit in 32 bits: more than 2^32 of either would wrap around to 0. */
  lemma FallbackKeysIncreaseIff(sizes: seq<int>, names: seq<string>)
    requires AllPositive(sizes) && Sum(sizes) == |names|
    ensures StrictlyIncreasing(FallbackLayout(sizes, names)) <==> FitsU32(sizes)
  {
    hide Sum, SlotEntry;
    var layout := FallbackLayout(sizes, names);
    if FitsU32(sizes) {
      forall i, j | 0 <= i < j < |layout| ensures KeyLess(layout[i].key, layout[j].key) {
        SlotKeysIncrease(sizes, names, i, j);
      }
    } else if |sizes| > U32 {
      SameKeyTwice(sizes, names, 0, 0, U32, 0);
    } else {
      var l :| 0 <= l < |sizes| && sizes[l] > U32;
      SameKeyTwice(sizes, names, l, 0, l, U32);
    }
  }

  lemma SameKeyTwice(sizes: seq<int>, names: seq<string>, l: nat, j: nat, m: nat, k: nat)
    requires AllPositive(sizes) && Sum(sizes) == |names|
    requires l < |sizes| && j < sizes[l] && m < |sizes| && k < sizes[m]
    requires (l, j) != (m, k) && l % U32 == m % U32 && j % U32 == k % U32
    ensures !StrictlyIncreasing(FallbackLayout(sizes, names))
  {
    hide Sum, Locate;
    SlotOf(sizes, l, j);
    SlotOf(sizes, m, k);
    var layout := FallbackLayout(sizes, names);
    var a, b := Sum(sizes[..l]) + j, Sum(sizes[..m]) + k;
    assert a != b by {
      assert Locate(sizes, a) == (l, j) && Locate(sizes, b) == (m, k);
    }
    assert layout[a] == SlotEntry(sizes, names, a) && layout[b] == SlotEntry(sizes, names, b);
    assert layout[a].key == Key(l % U32, j % U32) == layout[b].key;
    assert !KeyLess(layout[if a < b then a else b].key, layout[if a < b then b else a].key);
  }

  // ---------- the layout reported by the robot ----------

  /** One element of the motors array, after its fields were looked up under their aliases. */
  datatype MotorJson = MotorJson(isObject: bool, limb: Option<nat>, joint: Option<nat>, name: string)

  predicate Usable(m: MotorJson) {
    m.isObject && m.limb.Some? && m.joint.Some? && m.name != ""
  }

  function KeyOf(m: MotorJson): Key
    requires Usable(m)
  {
    Key(m.limb.value, m.joint.value)
  }

  /** Motor i is the first usable one with its key. */
  predicate IsFirst(ms: seq<MotorJson>, i: nat)
    requires i < |ms|
  {
    Usable(ms[i]) && forall j :: 0 <= j < i && Usable(ms[j]) ==> KeyOf(ms[j]) != KeyOf(ms[i])
  }

  function Firsts(ms: seq<MotorJson>, n: nat): seq<Entry>
    requires n <= |ms|
  {
    if n == 0 then []
    else Firsts(ms, n - 1) + if IsFirst(ms, n - 1) then [Entry(KeyOf(ms[n - 1]), ms[n - 1].name)] else []
  }

  predicate HasKey(layout: seq<Entry>, k: Key) {
    exists i :: 0 <= i < |layout| && layout[i].key == k
  }

  /** The entry comes from the first usable motor of its key. */
  predicate FromFirst(ms: seq<MotorJson>, n: nat, e: Entry)
    requires n <= |ms|
  {
    && e.name != ""
    && exists k :: 0 <= k < n && IsFirst(ms, k) && e == Entry(KeyOf(ms[k]), ms[k].name)
  }

  /** Parsed layouts have distinct keys, cover every usable motor, and give each key the name
      its first usable motor had. */
  lemma {:induction false} FirstsAreDistinct(ms: seq<MotorJson>, n: nat)
    requires n <= |ms|
    ensures var layout := Firsts(ms, n);
      && (forall i, j :: 0 <= i < j < |layout| ==> layout[i].key != layout[j].key)
      && (forall i :: 0 <= i < |layout| ==> FromFirst(ms, n, layout[i]))
      && (forall k :: 0 <= k < n && Usable(ms[k]) ==> HasKey(layout, KeyOf(ms[k])))
    ensures forall k :: 0 <= k < n && Usable(ms[k]) ==> ms[k].isObject && ms[k].limb.Some? && ms[k].joint.Some?
    ensures forall m: MotorJson :: m.isObject && m.limb.Some? && m.joint.Some? && m.name != "" ==> Usable(m)
  {
    if n > 0 {
      FirstsAreDistinct(ms, n - 1);
      var before, after := Firsts(ms, n - 1), Firsts(ms, n);
      forall k | 0 <= k < n && Usable(ms[k]) ensures HasKey(after, KeyOf(ms[k])) {
        if k < n - 1 {
          var i :| 0 <= i < |before| && before[i].key == KeyOf(ms[k]);
          assert after[i].key == KeyOf(ms[k]);
        } else if IsFirst(ms, k) {
          assert after[|before|].key == KeyOf(ms[k]);
        } else {
          var j :| 0 <= j < k && Usable(ms[j]) && KeyOf(ms[j]) == KeyOf(ms[k]);
          assert HasKey(before, KeyOf(ms[j]));
          var i :| 0 <= i < |before| && before[i].key == KeyOf(ms[j]);
          assert after[i].key == KeyOf(ms[k]);
        }
      }
      forall i | 0 <= i < |after| ensures FromFirst(ms, n, after[i]) {
        if i == |before| {
          assert IsFirst(ms, n - 1);
        } else {
          assert after[i] == before[i] && FromFirst(ms, n - 1, before[i]);
          var k :| 0 <= k < n - 1 && IsFirst(ms, k) && before[i] == Entry(KeyOf(ms[k]), ms[k].name);
          assert IsFirst(ms, k);
        }
      }
      forall i, j | 0 <= i < j < |after| ensures after[i].key != after[j].key {
        if j == |before| {
          assert FromFirst(ms, n - 1, before[i]);
          var k :| 0 <= k < n - 1 && IsFirst(ms, k) && before[i] == Entry(KeyOf(ms[k]), ms[k].name);
          assert KeyOf(ms[k]) != KeyOf(ms[n - 1]);
        } else {
          assert after[i] == before[i] && after[j] == before[j];
        }
      }
    }
  }

  /** `at` picks, in order, exactly the first usable motors of their keys among the first n. */
  predicate PicksFirsts(ms: seq<MotorJson>, n: nat, at: seq<nat>)
    requires n <= |ms|
  {
    && (forall k :: 0 <= k < |at| ==> at[k] < n && IsFirst(ms, at[k]))
    && (forall k, l :: 0 <= k < l < |at| ==> at[k] < at[l])
    && (forall i :: 0 <= i < n && IsFirst(ms, i) ==> i in at)
  }

  /** A parsed layout lists the first usable motor of each key, all of them and in the order of
      the report. */
  lemma {:induction false} FirstsAreInOrder(ms: seq<MotorJson>, n: nat) returns (at: seq<nat>)
    requires n <= |ms|
    ensures PicksFirsts(ms, n, at) && |at| == |Firsts(ms, n)|
    ensures forall k :: 0 <= k < |at| ==> Firsts(ms, n)[k] == Entry(KeyOf(ms[at[k]]), ms[at[k]].name)
  {
    at := [];
    if n > 0 {
      var before := FirstsAreInOrder(ms, n - 1);
      at := before + if IsFirst(ms, n - 1) then [n - 1] else [];
      forall i | 0 <= i < n && IsFirst(ms, i) ensures i in at {
        assert i < n - 1 ==> i in before;
      }
    }
  }

  // ---------- joint states ----------

  datatype Motor = Motor(key: Key, position: real, velocity: real, torque: real)

  datatype JointState = JointState(names: seq<string>, positions: seq<real>, velocities: seq<real>, efforts: seq<real>)

  function Clamp(v: int, low: int, high: int): (r: int)
    requires low <= high
    ensures low <= r <= high
    ensures low <= v <= high ==> r == v
    ensures v < low ==> r == low
    ensures v > high ==> r == high
  {
    if v < low then low else if v > high then high else v
  }

  /** The last of the first n motors with key k. */
  function LastMotor(motors: seq<Motor>, n: nat, k: Key): Option<Motor>
    requires n <= |motors|
  {
    if n == 0 then None
    else if motors[n - 1].key == k then Some(motors[n - 1])
    else LastMotor(motors, n - 1, k)
  }

  /** The layout entries that have a motor, in layout order, with their motors. */
  function Joined(layout: seq<Entry>, motors: seq<Motor>, n: nat): seq<(string, Motor)>
    requires n <= |motors|
  {
    if layout == [] then []
    else
      var entry := layout[|layout| - 1];
      var motor := LastMotor(motors, n, entry.key);
      Joined(layout[..|layout| - 1], motors, n) + if motor.Some? then [(entry.name, motor.value)] else []
  }

  predicate Observed(motors: seq<Motor>, n: nat, e: Entry)
    requires n <= |motors|
  {
    LastMotor(motors, n, e.key).Some?
  }

  /** `at` picks, in order, exactly the layout entries for which a motor was observed. */
  predicate PicksObserved(layout: seq<Entry>, motors: seq<Motor>, n: nat, at: seq<nat>)
    requires n <= |motors|
  {
    && (forall k :: 0 <= k < |at| ==> at[k] < |layout| && Observed(motors, n, layout[at[k]]))
    && (forall k, l :: 0 <= k < l < |at| ==> at[k] < at[l])
    && (forall i :: 0 <= i < |layout| && Observed(motors, n, layout[i]) ==> i in at)
  }

  lemma PicksExtend(layout: seq<Entry>, e: Entry, motors: seq<Motor>, n: nat, at: seq<nat>)
    requires n <= |motors| && PicksObserved(layout, motors, n, at)
    ensures PicksObserved(layout + [e], motors, n, at + if Observed(motors, n, e) then [|layout|] else [])
  {
    hide Observed;
  }

  /** The i-th joined motor is that of its layout entry, under the entry's name. */
  predicate JoinsEntry(joined: (string, Motor), motors: seq<Motor>, n: nat, e: Entry)
    requires n <= |motors|
  {
    joined.0 == e.name && Some(joined.1) == LastMotor(motors, n, e.key)
  }

  /** The joined motors are those of the layout's entries, all of them that were observed and in
      the layout's order, under the layout's names. */
  lemma {:induction false} JoinedIsInOrder(layout: seq<Entry>, motors: seq<Motor>, n: nat) returns (at: seq<nat>)
    requires n <= |motors|
    ensures PicksObserved(layout, motors, n, at)
    ensures var joined := Joined(layout, motors, n);
      && |at| == |joined|
      && forall k :: 0 <= k < |at| ==> JoinsEntry(joined[k], motors, n, layout[at[k]])
  {
    hide LastMotor;
    at := [];
    if layout != [] {
      var last := |layout| - 1;
      var before := JoinedIsInOrder(layout[..last], motors, n);
      assert layout == layout[..last] + [layout[last]];
      PicksExtend(layout[..last], layout[last], motors, n, before);
      at := before + if Observed(motors, n, layout[last]) then [last] else [];
      var joined := Joined(layout, motors, n);
      forall k | 0 <= k < |at| ensures JoinsEntry(joined[k], motors, n, layout[at[k]]) {
        if k < |before| {
          assert joined[k] == Joined(layout[..last], motors, n)[k];
        }
      }
    }
  }

  predicate Shows(s: JointState, joined: seq<(string, Motor)>) {
    && |s.names| == |s.positions| == |s.velocities| == |s.efforts| == |joined|
    && forall i :: 0 <= i < |joined| ==>
         && s.names[i] == joined[i].0 && s.positions[i] == joined[i].1.position
         && s.velocities[i] == joined[i].1.velocity && s.efforts[i] == joined[i].1.torque
  }

  lemma {:induction false} LastMotorIsLast(motors: seq<Motor>, n: nat, k: Key)
    requires n <= |motors|
    ensures var m := LastMotor(motors, n, k);
      if m.Some? then exists i :: 0 <= i < n && motors[i] == m.value && motors[i].key == k
                                  && forall j :: i < j < n ==> motors[j].key != k
      else forall j :: 0 <= j < n ==> motors[j].key != k
  {
    if n > 0 && motors[n - 1].key != k {
      LastMotorIsLast(motors, n - 1, k);
      if LastMotor(motors, n - 1, k).Some? {
        var i :| 0 <= i < n - 1 && motors[i] == LastMotor(motors, n - 1, k).value && motors[i].key == k
                 && forall j :: i < j < n - 1 ==> motors[j].key != k;
        assert forall j :: i < j < n ==> motors[j].key != k;
      }
    }
  }

  /** The robot reported a usable motor. */
  predicate Reported(motors: Option<seq<MotorJson>>) {
    motors.Some? && Firsts(motors.value, |motors.value|) != []
  }

  class JointStateSource {
    const publishJointStates: bool
    const fallbackSizes: seq<int>
    const fallbackNames: seq<string>
    var motorLayout: seq<Entry>
    var observing: bool

    constructor (publish: bool, sizes: seq<int>, names: seq<string>)
      ensures publishJointStates == publish && fallbackSizes == sizes && fallbackNames == names
      ensures motorLayout == [] && !observing
    {
      publishJointStates, fallbackSizes, fallbackNames := publish, sizes, names;
      motorLayout, observing := [], false;
    }

    /** configure_fallback_motor_layout(): a failure leaves the old layout.  None stands for a
        read past the last name, after which nothing is said. */
    method ConfigureFallback() returns (ok: Option<bool>)
      modifies this`motorLayout
      ensures ok == Some(true) <==> FallbackUsable(fallbackSizes, fallbackNames)
      ensures ok == None <==> RunsOut(fallbackSizes, fallbackNames)
      ensures motorLayout == if ok == Some(true) then FallbackLayout(fallbackSizes, fallbackNames) else old(motorLayout)
    {
      var expected := CountSlots(fallbackSizes);
      if expected.None? || expected.value == 0 || expected.value != |fallbackNames| {
        return Some(false);
      }
      SumIsPositive(fallbackSizes);
      var filled := FillSlots(fallbackSizes, fallbackNames);
      match filled {
        case EmptyName => return Some(false);
        case PastTheEnd => return None;
        case Layout(entries) =>
          motorLayout := entries;
          return Some(true);
      }
    }

    /** parse_motor_layout(): `motors` is None when the JSON holds no motors array. */
    method ParseMotorLayout(motors: Option<seq<MotorJson>>) returns (ok: bool)
      modifies this`motorLayout
      ensures ok <==> Reported(motors)
      ensures motorLayout == if ok then Firsts(motors.value, |motors.value|) else old(motorLayout)
    {
      if motors.None? {
        return false;
      }
      var ms := motors.value;
      var parsed: seq<Entry> := [];
      var keys: set<Key> := {};
      for i := 0 to |ms|
        invariant parsed == Firsts(ms, i)
        invariant forall k :: k in keys <==> exists j :: 0 <= j < i && Usable(ms[j]) && KeyOf(ms[j]) == k
      {
        var m := ms[i];
        if m.isObject && m.limb.Some? && m.joint.Some? && m.name != "" {
          var key := Key(m.limb.value, m.joint.value);
          if key !in keys {
            keys := keys + {key};
            parsed := parsed + [Entry(key, m.name)];
          }
        }
      }
      if parsed == [] {
        return false;
      }
      motorLayout := parsed;
      return true;
    }

    /** configure_joint_states(), with the layout query and the enabling call answered.  It is
        not defined when it falls back on limb sizes that run out of names. */
    method ConfigureJointStates(reply: Option<seq<MotorJson>>, enabled: bool) returns (defined: bool)
      modifies this
      ensures defined <==> old(observing) || !publishJointStates || Reported(reply)
                           || !RunsOut(fallbackSizes, fallbackNames)
      ensures old(observing) ==> observing && motorLayout == old(motorLayout)
      ensures defined && !old(observing) ==>
                && observing == enabled
                && motorLayout ==
                     if !enabled then []
                     else if !publishJointStates then old(motorLayout)
                     else if Reported(reply) then Firsts(reply.value, |reply.value|)
                     else if FallbackUsable(fallbackSizes, fallbackNames)
                     then FallbackLayout(fallbackSizes, fallbackNames)
                     else []
    {
      if observing {
        return true;
      }
      if publishJointStates {
        var parsed := ParseMotorLayout(reply);
        if !parsed {
          var fallback := ConfigureFallback();
          if fallback.None? {
            return false;
          }
          if !fallback.value {
            motorLayout := [];
          }
        }
      }
      if !enabled {
        motorLayout := [];
        return true;
      }
      observing := true;
      return true;
    }

    /** publish_joint_states(): None when nothing is published. */
    method PublishJointStates(motors: seq<Motor>, motorNum: int) returns (published: Option<JointState>)
      ensures var joined := Joined(motorLayout, motors, Clamp(motorNum, 0, |motors|));
        if publishJointStates && joined != [] then published.Some? && Shows(published.value, joined)
        else published.None?
    {
      if !publishJointStates || motorLayout == [] {
        return None;
      }
      var count := Clamp(motorNum, 0, |motors|);
      var observed: map<Key, Motor> := map[];
      for i := 0 to count
        invariant forall k :: k in observed <==> LastMotor(motors, i, k).Some?
        invariant forall k :: k in observed ==> LastMotor(motors, i, k) == Some(observed[k])
      {
        observed := observed[motors[i].key := motors[i]];
      }
      var output := JointState([], [], [], []);
      for i := 0 to |motorLayout|
        invariant Shows(output, Joined(motorLayout[..i], motors, count))
      {
        var entry := motorLayout[i];
        assert motorLayout[..i + 1][..i] == motorLayout[..i];
        if entry.key in observed {
          var motor := observed[entry.key];
          output := JointState(output.names + [entry.name], output.positions + [motor.position],
                               output.velocities + [motor.velocity], output.efforts + [motor.torque]);
        }
      }
      assert motorLayout[..|motorLayout|] == motorLayout;
      if output.names == [] {
        return None;
      }
      return Some(output);
    }
  }
}
