/** The value-level view of one schedule entry: the fixed-width integer types
    of the record, the five values it stores, and what each setter does to
    them. The class in schedule_entry.dfy is specified against this view. */
module EntryState {

  /** An unsigned 32-bit integer (`uint32_t`): every value in 0 .. 2^32 - 1 and nothing else. */
  newtype u32 = x: int | 0 <= x < 0x1_0000_0000

  /** An unsigned 8-bit integer (`uint8_t`): every value in 0 .. 255 and nothing else. */
  newtype u8 = x: int | 0 <= x < 0x100

  /** The five values an entry stores. Hours, minutes and city index are plain
      8-bit values: nothing restricts hours to 0 .. 23 or minutes to 0 .. 59. */
  datatype Fields = Fields(
    scheduledTstamp: u32,
    actualTstamp: u32,
    hours: u8,
    minutes: u8,
    cityIndex: u8)

  /** Names of the five fields, so that properties can be stated once for all of them. */
  datatype Field = ScheduledTstamp | ActualTstamp | Hours | Minutes | CityIndex

  /** One call of one of the five setters, with its argument. */
  datatype Setter =
    | SetScheduledTstamp(scheduled: u32)
    | SetActualTstamp(actual: u32)
    | SetHours(newHours: u8)
    | SetMinutes(newMinutes: u8)
    | SetCityIndex(newCityIndex: u8)

  /** The value stored in field `k`, widened to `int`. */
  function Get(f: Fields, k: Field): int {
    match k
    case ScheduledTstamp => f.scheduledTstamp as int
    case ActualTstamp => f.actualTstamp as int
    case Hours => f.hours as int
    case Minutes => f.minutes as int
    case CityIndex => f.cityIndex as int
  }

  /** The field a setter call writes. */
  function Target(op: Setter): Field {
    match op
    case SetScheduledTstamp(_) => ScheduledTstamp
    case SetActualTstamp(_) => ActualTstamp
    case SetHours(_) => Hours
    case SetMinutes(_) => Minutes
    case SetCityIndex(_) => CityIndex
  }

  /** The argument of a setter call, widened to `int`. */
  function Written(op: Setter): int {
    match op
    case SetScheduledTstamp(v) => v as int
    case SetActualTstamp(v) => v as int
    case SetHours(v) => v as int
    case SetMinutes(v) => v as int
    case SetCityIndex(v) => v as int
  }

  /** The state of a freshly constructed entry. */
  function Zeroed(): (f: Fields)
    ensures forall k :: Get(f, k) == 0
  {
    Fields(0, 0, 0, 0, 0)
  }

  /** The effect of one setter call: its own field now holds the argument,
      unchanged and unclamped, and every other field keeps its value. */
  function Apply(f: Fields, op: Setter): (g: Fields)
    ensures Get(g, Target(op)) == Written(op)
    ensures forall k :: k != Target(op) ==> Get(g, k) == Get(f, k)
  {
    match op
    case SetScheduledTstamp(v) => f.(scheduledTstamp := v)
    case SetActualTstamp(v) => f.(actualTstamp := v)
    case SetHours(v) => f.(hours := v)
    case SetMinutes(v) => f.(minutes := v)
    case SetCityIndex(v) => f.(cityIndex := v)
  }

  /** The state after the setter calls `ops`, in order, starting from `f`. */
  function Replay(f: Fields, ops: seq<Setter>): Fields
    decreases |ops|
  {
    if ops == [] then f else Apply(Replay(f, ops[..|ops| - 1]), ops[|ops| - 1])
  }

  /** The argument of the last call in `ops` that writes field `k`, or
      `initial` when no call does. */
  function LastWrite(ops: seq<Setter>, k: Field, initial: int): int
    decreases |ops|
  {
    if ops == [] then initial
    else if Target(ops[|ops| - 1]) == k then Written(ops[|ops| - 1])
    else LastWrite(ops[..|ops| - 1], k, initial)
  }

  /** The setter calls that write every field of `t`, one per field. */
  function WriteAll(t: Fields): seq<Setter> {
    [SetScheduledTstamp(t.scheduledTstamp), SetActualTstamp(t.actualTstamp),
     SetHours(t.hours), SetMinutes(t.minutes), SetCityIndex(t.cityIndex)]
  }

  /** Two states that agree on every field are the same state. */
  lemma FieldsAgree(f: Fields, g: Fields)
    requires forall k :: Get(f, k) == Get(g, k)
    ensures f == g
  {
    assert Get(f, ScheduledTstamp) == Get(g, ScheduledTstamp);
    assert Get(f, ActualTstamp) == Get(g, ActualTstamp);
    assert Get(f, Hours) == Get(g, Hours);
    assert Get(f, Minutes) == Get(g, Minutes);
    assert Get(f, CityIndex) == Get(g, CityIndex);
  }

  /** Since the fields are reachable only through the setters, after any
      sequence of setter calls each field holds the value of the last call
      that wrote it, or its earlier value if no call did. */
  lemma {:induction false} LastWriteWins(f: Fields, ops: seq<Setter>, k: Field)
    ensures Get(Replay(f, ops), k) == LastWrite(ops, k, Get(f, k))
    decreases |ops|
  {
    if ops != [] {
      LastWriteWins(f, ops[..|ops| - 1], k);
    }
  }

  /** A field that no call in `ops` writes keeps its value. */
  lemma {:induction false} UntouchedFieldKeepsValue(f: Fields, ops: seq<Setter>, k: Field)
    requires forall i :: 0 <= i < |ops| ==> Target(ops[i]) != k
    ensures Get(Replay(f, ops), k) == Get(f, k)
    decreases |ops|
  {
    if ops != [] {
      UntouchedFieldKeepsValue(f, ops[..|ops| - 1], k);
    }
  }

  /** A second call of the same setter discards the first one's value. */
  lemma SameFieldOverwrites(f: Fields, first: Setter, second: Setter)
    requires Target(first) == Target(second)
    ensures Apply(Apply(f, first), second) == Apply(f, second)
  {
  }

  /** Setters of different fields are independent: their order does not matter. */
  lemma DistinctFieldsCommute(f: Fields, a: Setter, b: Setter)
    requires Target(a) != Target(b)
    ensures Apply(Apply(f, a), b) == Apply(Apply(f, b), a)
  {
  }

  /** With no range check anywhere, every combination of field values,
      including hours of 24 or more and minutes of 60 or more, is reached from
      any state, the zeroed one included, by calling each setter once. */
  lemma EveryStateReachable(f: Fields, t: Fields)
    ensures Replay(f, WriteAll(t)) == t
  {
    var ops := WriteAll(t);
    forall k | true
      ensures Get(Replay(f, ops), k) == Get(t, k)
    {
      LastWriteWins(f, ops, k);
      var x := Get(f, k);
      assert ops[..4][..3] == ops[..3];
      assert ops[..3][..2] == ops[..2];
      assert ops[..2][..1] == ops[..1];
      assert ops[..1][..0] == [];
      assert LastWrite(ops[..1], k, x) == if k == ScheduledTstamp then Get(t, k) else x;
      assert LastWrite(ops[..2], k, x) == if k == ActualTstamp then Get(t, k) else LastWrite(ops[..1], k, x);
      assert LastWrite(ops[..3], k, x) == if k == Hours then Get(t, k) else LastWrite(ops[..2], k, x);
      assert LastWrite(ops[..4], k, x) == if k == Minutes then Get(t, k) else LastWrite(ops[..3], k, x);
    }
    FieldsAgree(Replay(f, ops), t);
  }
}
