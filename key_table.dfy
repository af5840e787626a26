/**
 * The resolver's fixed key list as data: each entry names a key, the getter
 * the constructor applies to it and the default it passes. `ResolveAll` walks
 * a list of entries in order and stops at the first failing lookup, which is
 * what the constructor's straight-line sequence of lookups does.
 */
module KeyTable {
  import opened Wrappers
  import opened JavaLang
  import opened PropertyGetters
  import opened BindTo

  /** One line of the constructor: the key, the getter applied to it, and its default. */
  datatype Entry =
    | IntKey(key: string, intDefault: Int32)             // getInt
    | SizeKey(key: string, intDefault: Int32)            // getIntSize
    | CeilPow2SizeKey(key: string, intDefault: Int32)    // Numbers.ceilPow2(getIntSize(...))
    | LongKey(key: string, longDefault: Int64)           // getLong
    | DoubleKey(key: string, doubleDefault: real)        // getDouble
    | BoolKey(key: string, boolDefault: bool)            // getBoolean
    | StringKey(key: string, textDefault: string)        // getString
    | IPv4Key(key: string, textDefault: string)          // getIPv4Address
    | BindKey(key: string, textDefault: string)          // parseBindTo

  /** A resolved setting. */
  datatype Value =
    | IntValue(intValue: Int32)
    | LongValue(longValue: Int64)
    | DoubleValue(doubleValue: real)
    | BoolValue(boolValue: bool)
    | TextValue(textValue: string)
    | AddressValue(address: BindAddress)

  /** The outcome of the one line of the constructor that `e` stands for. */
  function Lookup(nums: Numerics, props: Properties, e: Entry): Result<Value, ConfigError> {
    match e
    case IntKey(k, d) => var v :- GetInt(nums, props, k, d); Success(IntValue(v))
    case SizeKey(k, d) => var v :- GetIntSize(nums, props, k, d); Success(IntValue(v))
    case CeilPow2SizeKey(k, d) => var v :- GetIntSize(nums, props, k, d); Success(IntValue(nums.ceilPow2(v)))
    case LongKey(k, d) => var v :- GetLong(nums, props, k, d); Success(LongValue(v))
    case DoubleKey(k, d) => var v :- GetDouble(nums, props, k, d); Success(DoubleValue(v))
    case BoolKey(k, d) => Success(BoolValue(GetBoolean(props, k, d)))
    case StringKey(k, d) => Success(TextValue(GetString(props, k, d)))
    case IPv4Key(k, d) => var v :- GetIPv4Address(nums, props, k, d); Success(IntValue(v))
    case BindKey(k, d) => var v :- ParseBindSpec(nums, k, GetString(props, k, d)); Success(AddressValue(v))
  }

  /** The lookups of `entries[i..]` in order: all values, or the error of the first lookup that fails. */
  function ResolveFrom(nums: Numerics, props: Properties, entries: seq<Entry>, i: nat): Result<seq<Value>, ConfigError>
    decreases |entries| - i
  {
    if i >= |entries| then Success([])
    else
      var v :- Lookup(nums, props, entries[i]);
      var vs :- ResolveFrom(nums, props, entries, i + 1);
      Success([v] + vs)
  }

  function ResolveAll(nums: Numerics, props: Properties, entries: seq<Entry>): Result<seq<Value>, ConfigError> {
    ResolveFrom(nums, props, entries, 0)
  }

  /** From position `i` on, each lookup of `entries` succeeded with the corresponding value of `done`. */
  ghost predicate SucceededFrom(nums: Numerics, props: Properties, entries: seq<Entry>, done: seq<Value>, i: nat)
    decreases |done| - i
  {
    i >= |done| ||
    (i < |entries| && Lookup(nums, props, entries[i]) == Success(done[i])
     && SucceededFrom(nums, props, entries, done, i + 1))
  }

  /** The first |done| lookups of `entries` succeeded with the values `done`. */
  ghost predicate Succeeded(nums: Numerics, props: Properties, entries: seq<Entry>, done: seq<Value>) {
    |done| <= |entries| && SucceededFrom(nums, props, entries, done, 0)
  }

  /** `SucceededFrom` says the same as the pointwise statement. */
  lemma {:induction false} SucceededFromPointwise(nums: Numerics, props: Properties, entries: seq<Entry>, done: seq<Value>, i: nat)
    requires |done| <= |entries|
    ensures SucceededFrom(nums, props, entries, done, i) <==>
      forall j :: i <= j < |done| ==> Lookup(nums, props, entries[j]) == Success(done[j])
    decreases |done| - i
  {
    if i < |done| {
      SucceededFromPointwise(nums, props, entries, done, i + 1);
    }
  }

  /** Each lookup of a successful run gave its value. */
  lemma SucceededAt(nums: Numerics, props: Properties, entries: seq<Entry>, done: seq<Value>, j: nat)
    requires Succeeded(nums, props, entries, done) && j < |done|
    ensures Lookup(nums, props, entries[j]) == Success(done[j])
  {
    SucceededFromPointwise(nums, props, entries, done, 0);
  }

  /** A successful run extended by one more successful lookup. */
  lemma Extend(nums: Numerics, props: Properties, entries: seq<Entry>, done: seq<Value>, v: Value)
    requires Succeeded(nums, props, entries, done) && |done| < |entries|
    requires Lookup(nums, props, entries[|done|]) == Success(v)
    ensures Succeeded(nums, props, entries, done + [v])
  {
    SucceededFromPointwise(nums, props, entries, done, 0);
    SucceededFromPointwise(nums, props, entries, done + [v], 0);
  }

  /** Past a run of successful lookups, the walk goes on as the walk of the rest. */
  lemma {:induction false} ResolveFromSucceeded(nums: Numerics, props: Properties, entries: seq<Entry>, done: seq<Value>, i: nat)
    requires Succeeded(nums, props, entries, done) && i <= |done|
    ensures ResolveFrom(nums, props, entries, i) ==
      match ResolveFrom(nums, props, entries, |done|)
      case Success(vs) => Success(done[i..] + vs)
      case Failure(e) => Failure(e)
    decreases |done| - i
  {
    if i < |done| {
      ResolveFromSucceeded(nums, props, entries, done, i + 1);
      SucceededAt(nums, props, entries, done, i);
      match ResolveFrom(nums, props, entries, |done|)
      case Success(vs) => assert [done[i]] + (done[i + 1..] + vs) == done[i..] + vs;
      case Failure(e) =>
    } else {
      match ResolveFrom(nums, props, entries, |done|)
      case Success(vs) => assert done[i..] + vs == vs;
      case Failure(e) =>
    }
  }

  /** Two walks run one after the other: the first failure, or both lists of values joined. */
  function Then(first: Result<seq<Value>, ConfigError>, second: Result<seq<Value>, ConfigError>): Result<seq<Value>, ConfigError> {
    match first
    case Failure(e) => Failure(e)
    case Success(vs) =>
      match second
      case Failure(e) => Failure(e)
      case Success(ws) => Success(vs + ws)
  }

  /** The walk of `a + b` past the end of `a` is the walk of `b`. */
  lemma {:induction false} ResolveFromShift(nums: Numerics, props: Properties, a: seq<Entry>, b: seq<Entry>, j: nat)
    ensures ResolveFrom(nums, props, a + b, |a| + j) == ResolveFrom(nums, props, b, j)
    decreases |b| - j
  {
    if j < |b| {
      assert (a + b)[|a| + j] == b[j];
      ResolveFromShift(nums, props, a, b, j + 1);
    }
  }

  /** The walk of `a + b` from a position inside `a`. */
  lemma {:induction false} ResolveFromAppend(nums: Numerics, props: Properties, a: seq<Entry>, b: seq<Entry>, i: nat)
    requires i <= |a|
    ensures ResolveFrom(nums, props, a + b, i) == Then(ResolveFrom(nums, props, a, i), ResolveAll(nums, props, b))
    decreases |a| - i
  {
    if i == |a| {
      ResolveFromShift(nums, props, a, b, 0);
      match ResolveAll(nums, props, b)
      case Success(ws) => assert [] + ws == ws;
      case Failure(e) =>
    } else {
      assert (a + b)[i] == a[i];
      ResolveFromAppend(nums, props, a, b, i + 1);
      match Lookup(nums, props, a[i])
      case Failure(e) =>
      case Success(v) =>
        match ResolveFrom(nums, props, a, i + 1)
        case Failure(e) =>
        case Success(vs) =>
          match ResolveAll(nums, props, b)
          case Failure(e) =>
          case Success(ws) => assert [v] + (vs + ws) == ([v] + vs) + ws;
    }
  }

  /** Resolving a table made of two tables: the first one's walk, then the second one's. */
  lemma ResolveAllAppend(nums: Numerics, props: Properties, a: seq<Entry>, b: seq<Entry>)
    ensures ResolveAll(nums, props, a + b) == Then(ResolveAll(nums, props, a), ResolveAll(nums, props, b))
  {
    ResolveFromAppend(nums, props, a, b, 0);
  }

  /** A walk from `i` that succeeds yields one value per remaining entry, each that entry's lookup. */
  lemma {:induction false} ResolveFromValues(nums: Numerics, props: Properties, entries: seq<Entry>, i: nat, vs: seq<Value>)
    requires i <= |entries| && ResolveFrom(nums, props, entries, i) == Success(vs)
    ensures |vs| == |entries| - i
    ensures forall j :: 0 <= j < |vs| ==> Lookup(nums, props, entries[i + j]) == Success(vs[j])
    decreases |entries| - i
  {
    if i < |entries| {
      var v := Lookup(nums, props, entries[i]).value;
      var ws := ResolveFrom(nums, props, entries, i + 1).value;
      ResolveFromValues(nums, props, entries, i + 1, ws);
      assert vs == [v] + ws;
      forall j | 0 <= j < |vs|
        ensures Lookup(nums, props, entries[i + j]) == Success(vs[j])
      {
        if j > 0 {
          assert vs[j] == ws[j - 1];
          assert entries[i + j] == entries[(i + 1) + (j - 1)];
        }
      }
    }
  }

  /** A table that resolves yields one value per entry, each the outcome of that entry's lookup. */
  lemma ResolvedAt(nums: Numerics, props: Properties, entries: seq<Entry>, vs: seq<Value>)
    requires ResolveAll(nums, props, entries) == Success(vs)
    ensures |vs| == |entries|
    ensures forall j :: 0 <= j < |entries| ==> Lookup(nums, props, entries[j]) == Success(vs[j])
  {
    ResolveFromValues(nums, props, entries, 0, vs);
  }

  /** The walk from `i` fails with `e` exactly when some lookup there fails with `e` and every lookup before it succeeds. */
  lemma {:induction false} ResolveFromFailure(nums: Numerics, props: Properties, entries: seq<Entry>, i: nat, e: ConfigError)
    ensures ResolveFrom(nums, props, entries, i) == Failure(e) <==>
      exists k :: i <= k < |entries| && Lookup(nums, props, entries[k]) == Failure(e)
        && forall j :: i <= j < k ==> Lookup(nums, props, entries[j]).Success?
    decreases |entries| - i
  {
    if i < |entries| {
      ResolveFromFailure(nums, props, entries, i + 1, e);
      if ResolveFrom(nums, props, entries, i) == Failure(e) {
        if Lookup(nums, props, entries[i]).Success? {
          var k :| i + 1 <= k < |entries| && Lookup(nums, props, entries[k]) == Failure(e)
            && forall j :: i + 1 <= j < k ==> Lookup(nums, props, entries[j]).Success?;
          assert forall j :: i <= j < k ==> Lookup(nums, props, entries[j]).Success?;
        }
      } else {
        forall k | i <= k < |entries| && Lookup(nums, props, entries[k]) == Failure(e)
          ensures exists j :: i <= j < k && !Lookup(nums, props, entries[j]).Success?
        {
          if k == i {
            assert false;
          } else if Lookup(nums, props, entries[i]).Success? {
            assert exists j :: i + 1 <= j < k && !Lookup(nums, props, entries[j]).Success?;
          }
        }
      }
    }
  }

  /** The constructor fails with `e` exactly when one of its lookups fails with `e` and every earlier one succeeds. */
  lemma ResolveAllFailure(nums: Numerics, props: Properties, entries: seq<Entry>, e: ConfigError)
    ensures ResolveAll(nums, props, entries) == Failure(e) <==>
      exists k :: 0 <= k < |entries| && Lookup(nums, props, entries[k]) == Failure(e)
        && forall j :: 0 <= j < k ==> Lookup(nums, props, entries[j]).Success?
  {
    ResolveFromFailure(nums, props, entries, 0, e);
  }

  /** A table resolves exactly when every one of its lookups succeeds. */
  lemma ResolveAllSuccess(nums: Numerics, props: Properties, entries: seq<Entry>)
    ensures ResolveAll(nums, props, entries).Success? <==>
      forall j :: 0 <= j < |entries| ==> Lookup(nums, props, entries[j]).Success?
  {
    match ResolveAll(nums, props, entries)
    case Success(vs) => ResolvedAt(nums, props, entries, vs);
    case Failure(e) => ResolveAllFailure(nums, props, entries, e);
  }

  /** The keys the lookups of `entries` read. */
  function Keys(entries: seq<Entry>): set<string> {
    set e | e in entries :: e.key
  }

  /** `p1` and `p2` hold the same value, or both nothing, at each of `keys`. */
  predicate AgreeOn(p1: Properties, p2: Properties, keys: set<string>) {
    forall k :: k in keys ==> (k in p1 <==> k in p2) && (k in p1 ==> p1[k] == p2[k])
  }

  /** The walk from `i` reads the properties only at the keys of its entries. */
  lemma {:induction false} ResolveFromFrame(nums: Numerics, p1: Properties, p2: Properties, entries: seq<Entry>, i: nat)
    requires AgreeOn(p1, p2, Keys(entries))
    ensures ResolveFrom(nums, p1, entries, i) == ResolveFrom(nums, p2, entries, i)
    decreases |entries| - i
  {
    if i < |entries| {
      assert entries[i].key in Keys(entries);
      ResolveFromFrame(nums, p1, p2, entries, i + 1);
    }
  }

  /** Properties that agree on the keys of a table resolve it alike. */
  lemma ResolveAllFrame(nums: Numerics, p1: Properties, p2: Properties, entries: seq<Entry>)
    requires AgreeOn(p1, p2, Keys(entries))
    ensures ResolveAll(nums, p1, entries) == ResolveAll(nums, p2, entries)
  {
    ResolveFromFrame(nums, p1, p2, entries, 0);
  }

  /** A property whose key no entry names changes nothing: unknown keys are ignored. */
  lemma UnknownKeyIgnored(nums: Numerics, props: Properties, entries: seq<Entry>, key: string, value: string)
    requires key !in Keys(entries)
    ensures ResolveAll(nums, props[key := value], entries) == ResolveAll(nums, props, entries)
  {
    ResolveAllFrame(nums, props[key := value], props, entries);
  }

  /** A table made of two tables resolves to `vs + ws`, `vs` as long as the first, exactly when they resolve to `vs` and `ws`. */
  lemma ResolveAllSplit(nums: Numerics, props: Properties, a: seq<Entry>, b: seq<Entry>, vs: seq<Value>, ws: seq<Value>)
    requires |vs| == |a|
    ensures ResolveAll(nums, props, a + b) == Success(vs + ws) <==>
      ResolveAll(nums, props, a) == Success(vs) && ResolveAll(nums, props, b) == Success(ws)
  {
    ResolveAllAppend(nums, props, a, b);
    if ResolveAll(nums, props, a + b) == Success(vs + ws) {
      var xs := ResolveAll(nums, props, a).value;
      var ys := ResolveAll(nums, props, b).value;
      ResolvedAt(nums, props, a, xs);
      assert xs + ys == vs + ws;
      assert xs == (xs + ys)[..|a|] == (vs + ws)[..|a|] == vs;
      assert ys == (xs + ys)[|a|..] == (vs + ws)[|a|..] == ws;
    }
  }

  /** A walk that has not started yet. */
  lemma Start(nums: Numerics, props: Properties, entries: seq<Entry>)
    ensures Succeeded(nums, props, entries, [])
  {
  }

  /** The walk stops at the first lookup that fails, with that lookup's error. */
  lemma Abort(nums: Numerics, props: Properties, entries: seq<Entry>, done: seq<Value>, e: ConfigError)
    requires Succeeded(nums, props, entries, done) && |done| < |entries|
    requires Lookup(nums, props, entries[|done|]) == Failure(e)
    ensures ResolveAll(nums, props, entries) == Failure(e)
  {
    ResolveFromSucceeded(nums, props, entries, done, 0);
  }

  /** A walk whose every lookup succeeded yields exactly their values. */
  lemma Finish(nums: Numerics, props: Properties, entries: seq<Entry>, done: seq<Value>)
    requires Succeeded(nums, props, entries, done) && |done| == |entries|
    ensures ResolveAll(nums, props, entries) == Success(done)
  {
    ResolveFromSucceeded(nums, props, entries, done, 0);
    assert done[0..] + [] == done;
  }

  /** The next lookup of the walk, whichever way it goes. */
  lemma Step(nums: Numerics, props: Properties, entries: seq<Entry>, done: seq<Value>)
    requires Succeeded(nums, props, entries, done) && |done| < |entries|
    ensures Lookup(nums, props, entries[|done|]).Failure? ==>
      ResolveAll(nums, props, entries) == Failure(Lookup(nums, props, entries[|done|]).error)
    ensures Lookup(nums, props, entries[|done|]).Success? ==>
      Succeeded(nums, props, entries, done + [Lookup(nums, props, entries[|done|]).value])
  {
    match Lookup(nums, props, entries[|done|])
    case Success(v) => Extend(nums, props, entries, done, v);
    case Failure(e) => Abort(nums, props, entries, done, e);
  }

  /*
   * The constructor's lookups, one per getter, each carrying the walk along as
   * ghost state: `at` is the lookup's position in the walk, `done'` is `done`
   * extended by the value looked up, and a failure is the failure of the whole walk.
   */

  method GetIntStep(nums: Numerics, props: Properties, ghost entries: seq<Entry>, ghost done: seq<Value>,
                    ghost at: nat, key: string, defaultValue: Int32)
    returns (r: Result<Int32, ConfigError>, ghost done': seq<Value>)
    requires Succeeded(nums, props, entries, done) && |done| == at < |entries|
    requires entries[at] == IntKey(key, defaultValue)
    ensures r == GetInt(nums, props, key, defaultValue)
    ensures r.Failure? ==> ResolveAll(nums, props, entries) == Failure(r.error)
    ensures r.Success? ==> done' == done + [IntValue(r.value)] && Succeeded(nums, props, entries, done')
  {
    Step(nums, props, entries, done);
    r := GetInt(nums, props, key, defaultValue);
    done' := if r.Success? then done + [IntValue(r.value)] else done;
  }

  method GetIntSizeStep(nums: Numerics, props: Properties, ghost entries: seq<Entry>, ghost done: seq<Value>,
                        ghost at: nat, key: string, defaultValue: Int32)
    returns (r: Result<Int32, ConfigError>, ghost done': seq<Value>)
    requires Succeeded(nums, props, entries, done) && |done| == at < |entries|
    requires entries[at] == SizeKey(key, defaultValue)
    ensures r == GetIntSize(nums, props, key, defaultValue)
    ensures r.Failure? ==> ResolveAll(nums, props, entries) == Failure(r.error)
    ensures r.Success? ==> done' == done + [IntValue(r.value)] && Succeeded(nums, props, entries, done')
  {
    Step(nums, props, entries, done);
    r := GetIntSize(nums, props, key, defaultValue);
    done' := if r.Success? then done + [IntValue(r.value)] else done;
  }

  /** `Numbers.ceilPow2(getIntSize(...))`. */
  method CeilPow2SizeStep(nums: Numerics, props: Properties, ghost entries: seq<Entry>, ghost done: seq<Value>,
                          ghost at: nat, key: string, defaultValue: Int32)
    returns (r: Result<Int32, ConfigError>, ghost done': seq<Value>)
    requires Succeeded(nums, props, entries, done) && |done| == at < |entries|
    requires entries[at] == CeilPow2SizeKey(key, defaultValue)
    ensures var size := GetIntSize(nums, props, key, defaultValue);
      r == if size.Failure? then Failure(size.error) else Success(nums.ceilPow2(size.value))
    ensures r.Failure? ==> ResolveAll(nums, props, entries) == Failure(r.error)
    ensures r.Success? ==> done' == done + [IntValue(r.value)] && Succeeded(nums, props, entries, done')
  {
    Step(nums, props, entries, done);
    var size := GetIntSize(nums, props, key, defaultValue);
    done' := done;
    if size.Failure? {
      r := Failure(size.error);
    } else {
      r := Success(nums.ceilPow2(size.value));
      done' := done + [IntValue(r.value)];
    }
  }

  method GetLongStep(nums: Numerics, props: Properties, ghost entries: seq<Entry>, ghost done: seq<Value>,
                     ghost at: nat, key: string, defaultValue: Int64)
    returns (r: Result<Int64, ConfigError>, ghost done': seq<Value>)
    requires Succeeded(nums, props, entries, done) && |done| == at < |entries|
    requires entries[at] == LongKey(key, defaultValue)
    ensures r == GetLong(nums, props, key, defaultValue)
    ensures r.Failure? ==> ResolveAll(nums, props, entries) == Failure(r.error)
    ensures r.Success? ==> done' == done + [LongValue(r.value)] && Succeeded(nums, props, entries, done')
  {
    Step(nums, props, entries, done);
    r := GetLong(nums, props, key, defaultValue);
    done' := if r.Success? then done + [LongValue(r.value)] else done;
  }

  method GetDoubleStep(nums: Numerics, props: Properties, ghost entries: seq<Entry>, ghost done: seq<Value>,
                       ghost at: nat, key: string, defaultValue: real)
    returns (r: Result<real, ConfigError>, ghost done': seq<Value>)
    requires Succeeded(nums, props, entries, done) && |done| == at < |entries|
    requires entries[at] == DoubleKey(key, defaultValue)
    ensures r == GetDouble(nums, props, key, defaultValue)
    ensures r.Failure? ==> ResolveAll(nums, props, entries) == Failure(r.error)
    ensures r.Success? ==> done' == done + [DoubleValue(r.value)] && Succeeded(nums, props, entries, done')
  {
    Step(nums, props, entries, done);
    r := GetDouble(nums, props, key, defaultValue);
    done' := if r.Success? then done + [DoubleValue(r.value)] else done;
  }

  method GetBooleanStep(nums: Numerics, props: Properties, ghost entries: seq<Entry>, ghost done: seq<Value>,
                        ghost at: nat, key: string, defaultValue: bool)
    returns (r: bool, ghost done': seq<Value>)
    requires Succeeded(nums, props, entries, done) && |done| == at < |entries|
    requires entries[at] == BoolKey(key, defaultValue)
    ensures r == GetBoolean(props, key, defaultValue)
    ensures done' == done + [BoolValue(r)] && Succeeded(nums, props, entries, done')
  {
    Step(nums, props, entries, done);
    r := GetBoolean(props, key, defaultValue);
    done' := done + [BoolValue(r)];
  }

  method GetStringStep(nums: Numerics, props: Properties, ghost entries: seq<Entry>, ghost done: seq<Value>,
                       ghost at: nat, key: string, defaultValue: string)
    returns (r: string, ghost done': seq<Value>)
    requires Succeeded(nums, props, entries, done) && |done| == at < |entries|
    requires entries[at] == StringKey(key, defaultValue)
    ensures r == GetString(props, key, defaultValue)
    ensures done' == done + [TextValue(r)] && Succeeded(nums, props, entries, done')
  {
    Step(nums, props, entries, done);
    r := GetString(props, key, defaultValue);
    done' := done + [TextValue(r)];
  }

  method GetIPv4AddressStep(nums: Numerics, props: Properties, ghost entries: seq<Entry>, ghost done: seq<Value>,
                            ghost at: nat, key: string, defaultValue: string)
    returns (r: Result<Int32, ConfigError>, ghost done': seq<Value>)
    requires Succeeded(nums, props, entries, done) && |done| == at < |entries|
    requires entries[at] == IPv4Key(key, defaultValue)
    ensures r == GetIPv4Address(nums, props, key, defaultValue)
    ensures r.Failure? ==> ResolveAll(nums, props, entries) == Failure(r.error)
    ensures r.Success? ==> done' == done + [IntValue(r.value)] && Succeeded(nums, props, entries, done')
  {
    Step(nums, props, entries, done);
    r := GetIPv4Address(nums, props, key, defaultValue);
    done' := if r.Success? then done + [IntValue(r.value)] else done;
  }

  /** `parseBindTo` (lines 305-336) for the entry at `at`: its failure is the walk's failure, its pair the walk's next value. */
  method ParseBindToStep(nums: Numerics, props: Properties, ghost entries: seq<Entry>, ghost done: seq<Value>,
                         ghost at: nat, key: string, defaultValue: string)
    returns (r: Result<BindAddress, ConfigError>, ghost done': seq<Value>)
    requires Succeeded(nums, props, entries, done) && |done| == at < |entries|
    requires entries[at] == BindKey(key, defaultValue)
    ensures r == ParseBindSpec(nums, key, GetString(props, key, defaultValue))
    ensures r.Failure? ==> ResolveAll(nums, props, entries) == Failure(r.error)
    ensures r.Success? ==> done' == done + [AddressValue(r.value)] && Succeeded(nums, props, entries, done')
  {
    Step(nums, props, entries, done);
    r := ParseBindSpec(nums, key, GetString(props, key, defaultValue));
    done' := if r.Success? then done + [AddressValue(r.value)] else done;
  }
}
