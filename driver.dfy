/** The driver: the effects of the configuration kept in altitude order
    (lower altitudes are drawn first, so higher ones paint over them), and
    the loop that, for every datagram received, draws a fresh frame from
    every effect in that order and sends it to the keyboard. */
module Driver {
  import opened Primitives
  import Config
  import Frame
  import Property
  import Meter
  import Datagram

  /** `Effect`: an altitude and the meter it draws. */
  datatype Effect = Effect(altitude: int32, implementation: Meter.MeterEffect)

  /** The altitudes of `es`, in order. */
  function Altitudes(es: seq<Effect>): (alts: seq<int>)
    ensures |alts| == |es|
    ensures forall i :: 0 <= i < |es| ==> alts[i] == es[i].altitude
  {
    seq(|es|, i requires 0 <= i < |es| => es[i].altitude as int)
  }

  predicate Sorted(s: seq<int>)
  {
    forall i, j :: 0 <= i < j < |s| ==> s[i] <= s[j]
  }

  // ---------------------------------------------------------------------
  // Searching and inserting by altitude

  /** `slice::binary_search_by_key` on a sorted slice: `Ok(i)` for some
      index holding the key, else `Err(i)` with `i` the insertion point. */
  method BinarySearchByKey(s: seq<int>, key: int) returns (r: Result<nat, nat>)
    requires Sorted(s)
    ensures IsSearchResult(s, key, r)
  {
    var lo, hi := 0, |s|;
    while lo < hi
      invariant 0 <= lo <= hi <= |s|
      invariant forall i :: 0 <= i < lo ==> s[i] < key
      invariant forall i :: hi <= i < |s| ==> key < s[i]
      decreases hi - lo
    {
      var mid := lo + (hi - lo) / 2;
      if s[mid] < key {
        lo := mid + 1;
      } else if key < s[mid] {
        hi := mid;
      } else {
        return Ok(mid);
      }
    }
    r := Err(lo);
  }

  /** A search result as `binary_search_by_key` specifies it. */
  predicate IsSearchResult(s: seq<int>, key: int, r: Result<nat, nat>)
  {
    match r
    case Ok(i) => i < |s| && s[i] == key
    case Err(i) => i <= |s| && (forall j :: 0 <= j < i ==> s[j] < key) && (forall j :: i <= j < |s| ==> key < s[j])
  }

  /** The index of the first element of `s` that differs from `key`, or
      `|s|` when there is none: what `skip_while(.. == key).next()` finds. */
  function FirstDifferent(s: seq<int>, key: int): (j: nat)
    ensures j <= |s|
    ensures forall k :: 0 <= k < j ==> s[k] == key
    ensures j < |s| ==> s[j] != key
  {
    if s == [] || s[0] != key then 0
    else
      var j := 1 + FirstDifferent(s[1..], key);
      assert forall k :: 1 <= k < j ==> s[k] == s[1..][k - 1];
      j
  }

  /** Any index before which every element equals `key` and at which the
      first different one stands is the one `FirstDifferent` finds. */
  lemma FirstDifferentIs(s: seq<int>, key: int, j: nat)
    requires j <= |s|
    requires forall k :: 0 <= k < j ==> s[k] == key
    requires j < |s| ==> s[j] != key
    ensures FirstDifferent(s, key) == j
  {
    var f := FirstDifferent(s, key);
    assert f < |s| ==> s[f] != key;
  }

  /** The insertion index as `add_effect` computes it: after a match at
      `i`, the `enumerate` runs over the elements from `i` on, so the index
      it yields counts from `i`, not from 0. */
  function InsertIndexAsWritten(s: seq<int>, key: int, search: Result<nat, nat>): nat
    requires search.Ok? ==> search.value <= |s|
  {
    match search
    case Err(i) => i
    case Ok(i) =>
      var j := FirstDifferent(s[i..], key);
      if j < |s| - i then j else |s|
  }

  /** The insertion index counted from the start: just past the run of
      equal altitudes that holds the match. */
  function InsertIndex(s: seq<int>, key: int, search: Result<nat, nat>): nat
    requires search.Ok? ==> search.value <= |s|
  {
    match search
    case Err(i) => i
    case Ok(i) => i + FirstDifferent(s[i..], key)
  }

  /** The scan of `add_effect` past the run of elements equal to `key`
      that starts at `i`: the index of the first different element after
      it, or the length. */
  method SkipEqual(s: seq<int>, i: nat, key: int) returns (k: nat)
    requires i <= |s|
    ensures k == i + FirstDifferent(s[i..], key)
  {
    k := i;
    while k < |s| && s[k] == key
      invariant i <= k <= |s|
      invariant forall j :: i <= j < k ==> s[j] == key
    {
      k := k + 1;
    }
    FirstDifferentIs(s[i..], key, k - i);
  }

  /** The upper bound of `key` in `s`: the number of elements not above it,
      counted from the end. */
  function UpperBound(s: seq<int>, key: int): (u: nat)
    ensures u <= |s|
  {
    if s == [] then 0
    else if s[|s| - 1] <= key then |s|
    else UpperBound(s[..|s| - 1], key)
  }

  /** In a sorted sequence the upper bound splits it into the elements at
      or below the key and those above it. */
  lemma {:induction false} UpperBoundSplits(s: seq<int>, key: int)
    requires Sorted(s)
    ensures forall i :: 0 <= i < UpperBound(s, key) ==> s[i] <= key
    ensures forall i :: UpperBound(s, key) <= i < |s| ==> key < s[i]
  {
    if s != [] && s[|s| - 1] > key {
      var front := s[..|s| - 1];
      assert Sorted(front);
      UpperBoundSplits(front, key);
    }
  }

  /** Any index that splits a sorted sequence that way is the upper bound. */
  lemma UpperBoundUnique(s: seq<int>, key: int, u: nat)
    requires Sorted(s) && u <= |s|
    requires forall i :: 0 <= i < u ==> s[i] <= key
    requires forall i :: u <= i < |s| ==> key < s[i]
    ensures u == UpperBound(s, key)
  {
    UpperBoundSplits(s, key);
  }

  /** The corrected insertion index is the upper bound, whichever matching
      index the search returned. */
  lemma InsertIndexIsUpperBound(s: seq<int>, key: int, search: Result<nat, nat>)
    requires Sorted(s) && IsSearchResult(s, key, search)
    ensures InsertIndex(s, key, search) == UpperBound(s, key)
  {
    var u := InsertIndex(s, key, search);
    if search.Ok? {
      var i := search.value;
      var j := FirstDifferent(s[i..], key);
      assert forall k :: i <= k < u ==> s[k] == s[i..][k - i] == key;
      forall k | 0 <= k < u
        ensures s[k] <= key
      {
        if k < i {
          assert s[k] <= s[i];
        }
      }
      forall k | u <= k < |s|
        ensures key < s[k]
      {
        assert s[u] == s[i..][j] != key;
        assert key == s[i] <= s[u] <= s[k];
      }
    }
    UpperBoundUnique(s, key, u);
  }

  /** The two indices agree when there is no match, or when the match is
      at the front. */
  lemma AsWrittenAgreesAtFront(s: seq<int>, key: int, search: Result<nat, nat>)
    requires search.Ok? ==> search.value <= |s|
    requires search.Err? || search.value == 0
    ensures InsertIndexAsWritten(s, key, search) == InsertIndex(s, key, search)
  {
    if search.Ok? {
      assert s[0..] == s;
    }
  }

  function InsertAt<T>(s: seq<T>, k: nat, x: T): (r: seq<T>)
    requires k <= |s|
    ensures |r| == |s| + 1
  {
    s[..k] + [x] + s[k..]
  }

  /** With altitudes 0, 0, 0, 1, 2 a search for altitude 1 has one
      possible result: the match at index 3. */
  lemma OnlyMatch(r: Result<nat, nat>)
    ensures IsSearchResult([0, 0, 0, 1, 2], 1, r) <==> r == Ok(3)
  {
    var s := [0, 0, 0, 1, 2];
    match r {
      case Ok(i) =>
        if IsSearchResult(s, 1, r) {
          assert s[i] == 1;
        }
      case Err(i) =>
        assert s[3] == 1;
    }
  }

  /** Inserting altitude 1 after that match at the written index, 1, puts
      it before two effects of altitude 0. */
  lemma AsWrittenBreaksOrder()
    ensures var s := [0, 0, 0, 1, 2];
      InsertIndexAsWritten(s, 1, Ok(3)) == 1 && !Sorted(InsertAt(s, 1, 1))
  {
    var s := [0, 0, 0, 1, 2];
    assert s[3..] == [1, 2];
    assert [1, 2][1..] == [2];
    var bad := InsertAt(s, 1, 1);
    assert bad[1] == 1 && bad[2] == 0;
  }

  /** The corrected index for the same insertion is 4, which keeps the
      order. */
  lemma CorrectedKeepsOrder()
    ensures var s := [0, 0, 0, 1, 2];
      InsertIndex(s, 1, Ok(3)) == 4 && Sorted(InsertAt(s, 4, 1))
  {
    var s := [0, 0, 0, 1, 2];
    assert s[3..] == [1, 2];
    assert [1, 2][1..] == [2];
    assert InsertAt(s, 4, 1) == [0, 0, 0, 1, 1, 2];
  }

  /** `Vec::insert` at the corrected index: after every effect of the same
      or a lower altitude. */
  function Insert(es: seq<Effect>, e: Effect): seq<Effect>
  {
    InsertAt(es, UpperBound(Altitudes(es), e.altitude), e)
  }

  lemma AltitudesOfInsertAt(es: seq<Effect>, k: nat, e: Effect)
    requires k <= |es|
    ensures Altitudes(InsertAt(es, k, e)) == InsertAt(Altitudes(es), k, e.altitude as int)
  {
  }

  /** The effects in altitude order: lower altitudes first. */
  predicate ByAltitude(es: seq<Effect>)
  {
    forall i, j :: 0 <= i < j < |es| ==> es[i].altitude <= es[j].altitude
  }

  lemma ByAltitudeSorted(es: seq<Effect>)
    ensures ByAltitude(es) <==> Sorted(Altitudes(es))
  {
    var alts := Altitudes(es);
    assert forall i :: 0 <= i < |es| ==> alts[i] == es[i].altitude;
  }

  /** Inserting keeps the effects sorted, and the new one lands after
      every effect whose altitude is not above its own and before every
      effect whose altitude is. */
  lemma InsertSorted(es: seq<Effect>, e: Effect)
    requires ByAltitude(es)
    ensures ByAltitude(Insert(es, e))
    ensures var u := UpperBound(Altitudes(es), e.altitude);
      (forall i :: 0 <= i < u ==> es[i].altitude <= e.altitude)
      && (forall i :: u <= i < |es| ==> e.altitude < es[i].altitude)
  {
    var u := UpperBound(Altitudes(es), e.altitude);
    ByAltitudeSorted(es);
    UpperBoundSplits(Altitudes(es), e.altitude);
    AltitudesOfInsertAt(es, u, e);
    ByAltitudeSorted(Insert(es, e));
  }

  /** The effects of altitude `a`, in order. */
  function AtAltitude(es: seq<Effect>, a: int): seq<Effect>
  {
    if es == [] then []
    else AtAltitude(es[..|es| - 1], a) + (if es[|es| - 1].altitude == a then [es[|es| - 1]] else [])
  }

  lemma {:induction false} AtAltitudeConcat(xs: seq<Effect>, ys: seq<Effect>, a: int)
    ensures AtAltitude(xs + ys, a) == AtAltitude(xs, a) + AtAltitude(ys, a)
    decreases |ys|
  {
    if ys == [] {
      assert xs + ys == xs;
    } else {
      var n := |ys| - 1;
      assert (xs + ys)[..|xs + ys| - 1] == xs + ys[..n];
      AtAltitudeConcat(xs, ys[..n], a);
    }
  }

  lemma {:induction false} AtAltitudeNone(es: seq<Effect>, a: int)
    requires forall i :: 0 <= i < |es| ==> es[i].altitude != a
    ensures AtAltitude(es, a) == []
  {
    if es != [] {
      AtAltitudeNone(es[..|es| - 1], a);
    }
  }

  /** Inserting at an index before every effect of a higher altitude
      keeps each altitude's effects in order and puts the new one last. */
  lemma InsertAtStable(es: seq<Effect>, e: Effect, a: int, u: nat)
    requires u <= |es|
    requires forall i :: u <= i < |es| ==> e.altitude < es[i].altitude
    ensures AtAltitude(InsertAt(es, u, e), a) == AtAltitude(es, a) + (if e.altitude == a then [e] else [])
  {
    var x, y := es[..u], es[u..];
    AtAltitudeConcat(x + [e], y, a);
    AtAltitudeConcat(x, [e], a);
    AtAltitudeConcat(x, y, a);
    assert x + y == es;
    assert AtAltitude([e], a) == (if e.altitude == a then [e] else []) by {
      assert [e][..0] == [];
    }
    if e.altitude == a {
      assert forall i :: 0 <= i < |y| ==> y[i].altitude != a by {
        assert forall i :: 0 <= i < |y| ==> y[i] == es[u + i];
      }
      AtAltitudeNone(y, a);
    }
  }

  /** Inserting is stable: for every altitude, the effects of that
      altitude keep their order, and a new one comes after them. */
  lemma InsertStable(es: seq<Effect>, e: Effect, a: int)
    requires ByAltitude(es)
    ensures AtAltitude(Insert(es, e), a) == AtAltitude(es, a) + (if e.altitude == a then [e] else [])
  {
    InsertSorted(es, e);
    InsertAtStable(es, e, a, UpperBound(Altitudes(es), e.altitude));
  }

  /** The effects list after adding `es` one at a time to an empty list. */
  function Layered(es: seq<Effect>): seq<Effect>
  {
    if es == [] then [] else Insert(Layered(es[..|es| - 1]), es[|es| - 1])
  }

  lemma LayeredSnoc(es: seq<Effect>, e: Effect)
    ensures Layered(es + [e]) == Insert(Layered(es), e)
  {
    assert (es + [e])[..|es|] == es;
  }

  /** Layering sorts by altitude, keeps every effect exactly once, and
      keeps effects of equal altitude in configuration order. */
  lemma {:induction false} LayeredSortedStable(es: seq<Effect>)
    ensures ByAltitude(Layered(es))
    ensures multiset(Layered(es)) == multiset(es)
    ensures forall a :: AtAltitude(Layered(es), a) == AtAltitude(es, a)
  {
    if es != [] {
      var n := |es| - 1;
      var front := Layered(es[..n]);
      LayeredSortedStable(es[..n]);
      assert es == es[..n] + [es[n]];
      InsertKeeps(front, es[..n], es[n]);
      forall a
        ensures AtAltitude(Layered(es), a) == AtAltitude(es, a)
      {
        InsertStable(front, es[n], a);
      }
    }
  }

  /** Inserting into a list sorted by altitude keeps it sorted and adds
      exactly the inserted effect. */
  lemma InsertKeeps(front: seq<Effect>, es: seq<Effect>, e: Effect)
    requires ByAltitude(front) && multiset(front) == multiset(es)
    ensures ByAltitude(Insert(front, e)) && multiset(Insert(front, e)) == multiset(es + [e])
  {
    InsertSorted(front, e);
    var u := UpperBound(Altitudes(front), e.altitude);
    assert front == front[..u] + front[u..];
  }

  // ---------------------------------------------------------------------
  // Building the driver from the configuration

  datatype BuildError =
    | PredefinedEffect                              // `todo!()`
    | PropertyFailed(error: Property.PropertyError)
    | NotARate(name: string)                        // a score property where a rate is needed
    | MeterFailed(panic: Meter.Panic)

  /** Why a configuration entry cannot become an effect, if it cannot. */
  function EntryError(e: Config.Effect, colors: map<string, Config.Color>): Option<BuildError>
  {
    match e.data
    case Predefined(_) => Some(PredefinedEffect)
    case Custom(input, output) =>
      if input.property !in Property.PROPERTIES then Some(PropertyFailed(Property.UnknownProperty(input.property)))
      else if Property.PROPERTIES[input.property].ScoreEntry? then Some(NotARate(input.property))
      else if Meter.NewLayout(output, colors).Err? then Some(MeterFailed(Meter.NewLayout(output, colors).error))
      else None
  }

  /** The index of the first entry that cannot become an effect. */
  function FirstFailing(es: seq<Config.Effect>, colors: map<string, Config.Color>): (k: nat)
    ensures k <= |es|
    ensures forall i :: 0 <= i < k ==> EntryError(es[i], colors).None?
    ensures k < |es| ==> EntryError(es[k], colors).Some?
  {
    if es == [] || EntryError(es[0], colors).Some? then 0
    else
      var k := 1 + FirstFailing(es[1..], colors);
      assert forall i :: 1 <= i < k ==> es[i] == es[1..][i - 1];
      k
  }

  /** The effect built from a configuration entry that has no error: its
      altitude, its layout and the query and policy of its property. */
  predicate BuiltFrom(b: Effect, e: Config.Effect, colors: map<string, Config.Color>)
  {
    EntryError(e, colors).None? && e.data.Custom?
    && b.altitude == e.altitude
    && b.implementation.layout == Meter.NewLayout(e.data.output, colors).value
    && Property.PROPERTIES[e.data.input.property] == Property.RateEntry(b.implementation.property.query)
    && b.implementation.property.autoRaise == e.data.input.autoRaise
  }

  /** The stored maximum of an entry's new property is the initial one
      the entry gives. */
  predicate InitialState(b: Effect, e: Config.Effect)
    reads b.implementation.property
  {
    e.data.Custom? && b.implementation.property.maxValue == Property.InitialMax(e.data.input)
  }

  /** Every effect of `bs` is built from the entry of `es` at its index. */
  predicate BuiltAll(bs: seq<Effect>, es: seq<Config.Effect>, colors: map<string, Config.Color>)
  {
    |bs| == |es|
    && (bs != [] ==> BuiltAll(bs[..|bs| - 1], es[..|es| - 1], colors) && BuiltFrom(bs[|bs| - 1], es[|es| - 1], colors))
  }

  lemma {:induction false} BuiltAllAt(bs: seq<Effect>, es: seq<Config.Effect>, colors: map<string, Config.Color>, i: nat)
    requires BuiltAll(bs, es, colors) && i < |bs|
    ensures BuiltFrom(bs[i], es[i], colors)
  {
    if i < |bs| - 1 {
      BuiltAllAt(bs[..|bs| - 1], es[..|es| - 1], colors, i);
    }
  }

  lemma BuiltAllSnoc(bs: seq<Effect>, b: Effect, es: seq<Config.Effect>, colors: map<string, Config.Color>, i: nat)
    requires i < |es| && BuiltAll(bs, es[..i], colors) && BuiltFrom(b, es[i], colors)
    ensures BuiltAll(bs + [b], es[..i + 1], colors)
  {
    assert (bs + [b])[..|bs|] == bs;
    assert es[..i + 1][..i] == es[..i];
  }

  /** The per-tick record handed to the effects. */
  datatype Tick = Tick(now: int, elapsed: Option<nat>)

  datatype RunError = ApplyFailed | Panicked(panic: Meter.Panic)

  /** A clock that never runs backwards, as `Instant` does not. */
  predicate Monotone(clock: seq<nat>)
  {
    forall i, j :: 0 <= i <= j < |clock| ==> clock[i] <= clock[j]
  }

  /** The tick of the k-th datagram: its time, and the time since the
      previous tick, which the first tick does not have. */
  function TickAt(clock: seq<nat>, k: nat): (t: Tick)
    requires Monotone(clock) && k < |clock|
    ensures t.now == clock[k]
    ensures t.elapsed.None? <==> k == 0
    ensures k > 0 ==> t.now == clock[k - 1] + t.elapsed.value
  {
    Tick(clock[k], if k == 0 then None else Some(clock[k] - clock[k - 1]))
  }

  /** The ticks of the first n datagrams. */
  function Ticks(clock: seq<nat>, n: nat): (ts: seq<Tick>)
    requires Monotone(clock) && n <= |clock|
    ensures |ts| == n
    ensures forall k :: 0 <= k < n ==> ts[k] == TickAt(clock, k)
  {
    if n == 0 then [] else Ticks(clock, n - 1) + [TickAt(clock, n - 1)]
  }

  /** The stream items: a datagram or a read error. */
  datatype StreamItem = Received(datagram: Datagram.Horizon4Datagram) | ReadError

  /** The meters of `es`, in order. */
  function Implementations(es: seq<Effect>): (ms: seq<Meter.MeterEffect>)
    ensures |ms| == |es|
    ensures forall i :: 0 <= i < |es| ==> ms[i] == es[i].implementation
  {
    seq(|es|, i requires 0 <= i < |es| => es[i].implementation)
  }

  /** The layouts of meters `ms`, in order. */
  function Layouts(ms: seq<Meter.MeterEffect>): (ls: seq<Meter.MeterLayout>)
    ensures |ls| == |ms|
    ensures forall i :: 0 <= i < |ms| ==> ls[i] == ms[i].layout
  {
    seq(|ms|, i requires 0 <= i < |ms| => ms[i].layout)
  }

  /** Every meter owns its property: no two meters share one, as no two
      boxed effects can in the program. */
  predicate OwnProperties(ms: seq<Meter.MeterEffect>)
  {
    forall i, j :: 0 <= i < j < |ms| ==> ms[i].property != ms[j].property
  }

  /** The maxima the meters' properties store, in order. */
  function Maxima(ms: seq<Meter.MeterEffect>): (m: seq<Option<real>>)
    reads set i | 0 <= i < |ms| :: ms[i].property
    ensures |m| == |ms|
    ensures forall i :: 0 <= i < |ms| ==> m[i] == ms[i].property.maxValue
  {
    seq(|ms|, i requires 0 <= i < |ms| reads set j | 0 <= j < |ms| :: ms[j].property => ms[i].property.maxValue)
  }

  predicate Levels(levels: seq<Option<real>>)
  {
    forall i :: 0 <= i < |levels| ==> levels[i].Some? ==> 0.0 <= levels[i].value <= 1.0
  }

  /** The writes of one tick: every meter's writes in list order, or the
      first panic. */
  function FrameWrites(ls: seq<Meter.MeterLayout>, levels: seq<Option<real>>): Result<seq<Frame.Write>, Meter.Panic>
    requires |ls| == |levels| && Levels(levels)
  {
    if ls == [] then Ok([])
    else
      var n := |ls| - 1;
      match FrameWrites(ls[..n], levels[..n])
      case Err(p) => Err(p)
      case Ok(front) =>
        match Meter.TickWrites(ls[n], levels[n])
        case Err(p) => Err(p)
        case Ok(ws) => Ok(front + ws)
  }

  /** Whether the datagram reports a race in progress. */
  function RaceOn(d: Datagram.Horizon4Datagram): bool
  {
    d.sled.isRaceOn != 0
  }

  /** One tick's pass over the meters: the levels the meters that updated
      stored, the maxima their properties store after it, and the frame's
      writes or the panic that ended the pass. */
  datatype TickOutcome = TickOutcome(levels: seq<Option<real>>, maxima: seq<Option<real>>,
                                     writes: Result<seq<Frame.Write>, Meter.Panic>)

  /** One meter's part of a pass: its update and its tick's writes at the
      level that update stores. */
  datatype Stage = Stage(update: Result<(Option<real>, Option<real>), Property.PropertyError>,
                         writes: Result<seq<Frame.Write>, Meter.Panic>)

  function StageOf(m: Meter.MeterEffect, stored: Option<real>, d: Datagram.Horizon4Datagram): Stage
  {
    var u := Meter.UpdateOutcome(m.property.query, stored, m.property.autoRaise, d);
    Stage(u, if u.Ok? then Meter.TickWrites(m.layout, u.value.0) else Ok([]))
  }

  /** The stages of meters `ms`, whose properties store `maxima`, for
      datagram `d`. */
  function Stages(ms: seq<Meter.MeterEffect>, maxima: seq<Option<real>>, d: Datagram.Horizon4Datagram)
    : (ss: seq<Stage>)
    requires |maxima| == |ms|
    ensures |ss| == |ms|
    ensures forall i :: 0 <= i < |ms| ==> ss[i] == StageOf(ms[i], maxima[i], d)
  {
    seq(|ms|, i requires 0 <= i < |ms| => StageOf(ms[i], maxima[i], d))
  }

  /** The levels the stages store lie in [0, 1] and are present exactly
      while a race is `raceOn`. */
  predicate StagedLevels(raceOn: bool, ss: seq<Stage>)
  {
    forall i :: 0 <= i < |ss| && ss[i].update.Ok? ==>
      (ss[i].update.value.0.Some? <==> raceOn)
      && (ss[i].update.value.0.Some? ==> 0.0 <= ss[i].update.value.0.value <= 1.0)
  }

  /** Each stage's writes are those of its meter's tick, for layouts `ls`,
      at the level its update stores. */
  predicate StagedWrites(ls: seq<Meter.MeterLayout>, ss: seq<Stage>)
    requires StagedLevels(true, ss) || StagedLevels(false, ss)
  {
    |ls| == |ss|
    && forall i :: 0 <= i < |ss| && ss[i].update.Ok? ==> ss[i].writes == Meter.TickWrites(ls[i], ss[i].update.value.0)
  }

  lemma StagesStaged(ms: seq<Meter.MeterEffect>, maxima: seq<Option<real>>, d: Datagram.Horizon4Datagram)
    requires |maxima| == |ms|
    ensures StagedLevels(RaceOn(d), Stages(ms, maxima, d))
    ensures StagedWrites(Layouts(ms), Stages(ms, maxima, d))
  {
  }

  /** The pass over stages `ss` from maxima `maxima`: each meter in list
      order updates and then draws; the pass stops at the first panic, and
      the meters after it are not touched. */
  function Pass(ss: seq<Stage>, maxima: seq<Option<real>>): (t: TickOutcome)
    requires |maxima| == |ss|
    ensures |t.maxima| == |ss| && |t.levels| <= |ss|
    ensures t.writes.Ok? ==> |t.levels| == |ss|
  {
    if ss == [] then TickOutcome([], [], Ok([]))
    else
      var n := |ss| - 1;
      Next(Pass(ss[..n], maxima[..n]), ss[n], maxima[n])
  }

  /** The pass `front` extended by one meter, of stage `s`, whose property
      stores `stored`: a meter after a panic, or whose update failed, keeps
      its maximum. */
  function Next(front: TickOutcome, s: Stage, stored: Option<real>): TickOutcome
  {
    if front.writes.Err? then TickOutcome(front.levels, front.maxima + [stored], front.writes)
    else
      match s.update
      case Err(e) => TickOutcome(front.levels, front.maxima + [stored], Err(Meter.QueryFailed(e)))
      case Ok(o) =>
        TickOutcome(front.levels + [o.0], front.maxima + [o.1],
                    if s.writes.Err? then s.writes else Ok(front.writes.value + s.writes.value))
  }

  /** `run`'s inner loop over meters `ms`, whose properties store `maxima`,
      for datagram `d`. */
  function RunMeters(ms: seq<Meter.MeterEffect>, maxima: seq<Option<real>>, d: Datagram.Horizon4Datagram)
    : (t: TickOutcome)
    requires |maxima| == |ms|
    ensures |t.maxima| == |ms| && |t.levels| <= |ms|
    ensures t.writes.Ok? ==> |t.levels| == |ms|
  {
    Pass(Stages(ms, maxima, d), maxima)
  }

  /** Every meter the pass reached stored its stage's level and maximum;
      every other meter kept its maximum. */
  lemma {:induction false} PassAt(ss: seq<Stage>, maxima: seq<Option<real>>, i: nat)
    requires |maxima| == |ss| && i < |ss|
    ensures var t := Pass(ss, maxima);
      (i < |t.levels| ==> ss[i].update == Ok((t.levels[i], t.maxima[i])))
      && (|t.levels| <= i ==> t.maxima[i] == maxima[i])
  {
    var n := |ss| - 1;
    if i < n {
      PassAt(ss[..n], maxima[..n], i);
    }
  }

  /** Every meter the pass reached stored its update's level and maximum;
      every other meter kept its maximum. */
  lemma RunMetersAt(ms: seq<Meter.MeterEffect>, maxima: seq<Option<real>>, d: Datagram.Horizon4Datagram, i: nat)
    requires |maxima| == |ms| && i < |ms|
    ensures var t := RunMeters(ms, maxima, d);
      (i < |t.levels| ==>
        Meter.UpdateOutcome(ms[i].property.query, maxima[i], ms[i].property.autoRaise, d) == Ok((t.levels[i], t.maxima[i])))
      && (|t.levels| <= i ==> t.maxima[i] == maxima[i])
  {
    PassAt(Stages(ms, maxima, d), maxima, i);
  }

  /** Once the pass has stopped, the stages after the stop change nothing. */
  lemma {:induction false} PassStops(ss: seq<Stage>, maxima: seq<Option<real>>, k: nat)
    requires |maxima| == |ss| && k <= |ss| && Pass(ss[..k], maxima[..k]).writes.Err?
    ensures var t := Pass(ss[..k], maxima[..k]);
      Pass(ss, maxima) == TickOutcome(t.levels, t.maxima + maxima[k..], t.writes)
  {
    if k == |ss| {
      assert ss[..k] == ss && maxima[..k] == maxima && maxima[k..] == [];
    } else {
      var n := |ss| - 1;
      assert ss[..n][..k] == ss[..k] && maxima[..n][..k] == maxima[..k];
      PassStops(ss[..n], maxima[..n], k);
      assert maxima[..n][k..] + [maxima[n]] == maxima[k..];
    }
  }

  /** One tick drawn by meters with layouts `ls` from datagram `d`: each
      meter's level lies in [0, 1] and is present exactly when a race is on,
      no meter panicked, and `frame` holds the writes of all meters in list
      order applied to an empty frame. */
  predicate Drawn(ls: seq<Meter.MeterLayout>, raceOn: bool, levels: seq<Option<real>>,
                  frame: map<Frame.Cell, Rgb>)
  {
    |levels| == |ls| && Levels(levels)
    && (forall i :: 0 <= i < |levels| ==> (levels[i].Some? <==> raceOn))
    && FrameWrites(ls, levels).Ok?
    && frame == Frame.Apply(map[], FrameWrites(ls, levels).value)
  }

  /** A pass stores levels in [0, 1], present exactly during a race. */
  lemma {:induction false} PassLevels(raceOn: bool, ss: seq<Stage>, maxima: seq<Option<real>>)
    requires StagedLevels(raceOn, ss) && |maxima| == |ss|
    ensures Levels(Pass(ss, maxima).levels)
    ensures forall i :: 0 <= i < |Pass(ss, maxima).levels| ==> (Pass(ss, maxima).levels[i].Some? <==> raceOn)
  {
    if ss != [] {
      var n := |ss| - 1;
      PassLevels(raceOn, ss[..n], maxima[..n]);
    }
  }

  /** When a pass ends without a panic, its writes are those of every
      meter's tick at the level its update stored, in list order. */
  lemma {:induction false} PassWrites(ls: seq<Meter.MeterLayout>, raceOn: bool, ss: seq<Stage>, maxima: seq<Option<real>>)
    requires StagedLevels(raceOn, ss) && StagedWrites(ls, ss) && |maxima| == |ss|
    requires Pass(ss, maxima).writes.Ok?
    ensures Levels(Pass(ss, maxima).levels)
    ensures FrameWrites(ls, Pass(ss, maxima).levels) == Pass(ss, maxima).writes
  {
    PassLevels(raceOn, ss, maxima);
    var n := |ss| - 1;
    if ss != [] {
      var t := Pass(ss, maxima);
      var front := Pass(ss[..n], maxima[..n]);
      PassWrites(ls[..n], raceOn, ss[..n], maxima[..n]);
      assert t.levels[..n] == front.levels;
    }
  }

  /** A pass that ends without a panic has every meter draw in list order:
      its writes are those of every meter's tick at the level its update
      stored, present exactly when a race is on. */
  lemma RunMetersDrawn(ms: seq<Meter.MeterEffect>, maxima: seq<Option<real>>, d: Datagram.Horizon4Datagram)
    requires |maxima| == |ms|
    ensures var t := RunMeters(ms, maxima, d);
      t.writes.Ok? ==> Drawn(Layouts(ms), RaceOn(d), t.levels, Frame.Apply(map[], t.writes.value))
  {
    var ss := Stages(ms, maxima, d);
    StagesStaged(ms, maxima, d);
    PassLevels(RaceOn(d), ss, maxima);
    if Pass(ss, maxima).writes.Ok? {
      PassWrites(Layouts(ms), RaceOn(d), ss, maxima);
    }
  }

  /** The index of the first stream item that is not a datagram: a read
      error, or the end of the stream. */
  function FirstNotReceived(items: seq<StreamItem>): (k: nat)
    ensures k <= |items|
    ensures forall i :: 0 <= i < k ==> items[i].Received?
    ensures k < |items| ==> items[k].ReadError?
  {
    if items == [] || items[0].ReadError? then 0
    else
      var k := 1 + FirstNotReceived(items[1..]);
      assert forall i :: 1 <= i < k ==> items[i] == items[1..][i - 1];
      k
  }

  /** The index at which the stream loop stops by itself: the end of the
      stream, a read error or the cancellation, whichever comes first. */
  function StreamStop(items: seq<StreamItem>, cancelAt: Option<nat>): (k: nat)
    ensures k <= FirstNotReceived(items) <= |items|
    ensures forall i :: 0 <= i < k ==> items[i].Received?
    ensures cancelAt.Some? ==> k <= cancelAt.value
    ensures k < |items| ==> items[k].ReadError? || cancelAt == Some(k)
  {
    var end := FirstNotReceived(items);
    if cancelAt.Some? && cancelAt.value < end then cancelAt.value else end
  }

  /** The maxima the meters' properties store once the first `k` datagrams
      have each passed through every meter, from `m0`. */
  function MaximaAfter(ms: seq<Meter.MeterEffect>, m0: seq<Option<real>>, items: seq<StreamItem>, k: nat)
    : (m: seq<Option<real>>)
    requires |m0| == |ms| && k <= FirstNotReceived(items)
    ensures |m| == |ms|
  {
    if k == 0 then m0 else RunMeters(ms, MaximaAfter(ms, m0, items, k - 1), items[k - 1].datagram).maxima
  }

  /** One more datagram folds one more pass into the maxima. */
  lemma MaximaAfterNext(ms: seq<Meter.MeterEffect>, m0: seq<Option<real>>, items: seq<StreamItem>, k: nat,
                        before: seq<Option<real>>)
    requires |m0| == |ms| && 0 < k <= FirstNotReceived(items) && before == MaximaAfter(ms, m0, items, k - 1)
    ensures MaximaAfter(ms, m0, items, k) == RunMeters(ms, before, items[k - 1].datagram).maxima
  {
  }

  /** Frame `frame`, at levels `level`, is what the pass over meters `ms`
      drew from datagram `d` with the properties storing `before`: the pass
      did not panic and left `after`. */
  predicate DrawnFrom(ms: seq<Meter.MeterEffect>, d: Datagram.Horizon4Datagram, before: seq<Option<real>>,
                      after: seq<Option<real>>, level: seq<Option<real>>, frame: map<Frame.Cell, Rgb>)
  {
    |before| == |ms|
    && var t := RunMeters(ms, before, d);
       t.writes.Ok? && level == t.levels && frame == Frame.Apply(map[], t.writes.value) && after == t.maxima
  }

  /** The pass over meters `ms` from datagram `d`, with the properties
      storing `before`, panicked with `e` and left `after`. */
  predicate PanickedFrom(ms: seq<Meter.MeterEffect>, d: Datagram.Horizon4Datagram, before: seq<Option<real>>,
                         after: seq<Option<real>>, e: Meter.Panic)
  {
    |before| == |ms|
    && var t := RunMeters(ms, before, d);
       t.writes == Err(e) && after == t.maxima
  }

  /** In a pass drawn so, meter i's level and the maximum its property
      stores after it are those of its own `update` from `before[i]`: no
      level without a race, otherwise the query's ratio clamped to [0, 1]. */
  lemma DrawnFromUpdates(ms: seq<Meter.MeterEffect>, d: Datagram.Horizon4Datagram, before: seq<Option<real>>,
                         after: seq<Option<real>>, level: seq<Option<real>>, frame: map<Frame.Cell, Rgb>, i: nat)
    requires DrawnFrom(ms, d, before, after, level, frame) && i < |ms|
    ensures i < |level| && i < |after|
    ensures Meter.UpdateOutcome(ms[i].property.query, before[i], ms[i].property.autoRaise, d) == Ok((level[i], after[i]))
  {
    RunMetersAt(ms, before, d, i);
  }

  /** Frame k of `frames` was drawn from the k-th stream item, a datagram,
      by a pass over every meter whose properties stored `hist[k]`, and the
      pass left `hist[k + 1]`. */
  predicate DrawnK(ms: seq<Meter.MeterEffect>, items: seq<StreamItem>, hist: seq<seq<Option<real>>>,
                   levels: seq<seq<Option<real>>>, frames: seq<map<Frame.Cell, Rgb>>, k: nat)
  {
    k < |frames| && k < |levels| && k + 1 < |hist| && k < |items| && items[k].Received?
    && DrawnFrom(ms, items[k].datagram, hist[k], hist[k + 1], levels[k], frames[k])
  }

  /** Every frame of `frames` was drawn so. */
  predicate AllDrawn(ms: seq<Meter.MeterEffect>, items: seq<StreamItem>, hist: seq<seq<Option<real>>>,
                     levels: seq<seq<Option<real>>>, frames: seq<map<Frame.Cell, Rgb>>)
  {
    |hist| == |levels| + 1 && |levels| == |frames| <= FirstNotReceived(items)
    && (forall k :: 0 <= k < |hist| ==> |hist[k]| == |ms|)
    && forall k :: 0 <= k < |frames| ==> DrawnK(ms, items, hist, levels, frames, k)
  }

  /** Frame k was drawn, by every meter and from datagram k, without a
      panic, at the maxima the earlier datagrams left. */
  lemma AllDrawnAt(ms: seq<Meter.MeterEffect>, items: seq<StreamItem>, hist: seq<seq<Option<real>>>,
                   levels: seq<seq<Option<real>>>, frames: seq<map<Frame.Cell, Rgb>>, k: nat)
    requires AllDrawn(ms, items, hist, levels, frames) && k < |frames|
    ensures k < FirstNotReceived(items) && |hist[k]| == |ms|
    ensures var t := RunMeters(ms, hist[k], items[k].datagram);
      t.writes.Ok? && levels[k] == t.levels && frames[k] == Frame.Apply(map[], t.writes.value)
      && hist[k + 1] == t.maxima
  {
    assert DrawnK(ms, items, hist, levels, frames, k);
  }

  /** The maxima the pass over datagram k - 1 left are those the next pass
      started from. */
  lemma AllDrawnLeaves(ms: seq<Meter.MeterEffect>, items: seq<StreamItem>, hist: seq<seq<Option<real>>>,
                       levels: seq<seq<Option<real>>>, frames: seq<map<Frame.Cell, Rgb>>, k: nat)
    requires AllDrawn(ms, items, hist, levels, frames) && 0 < k < |hist|
    ensures k <= FirstNotReceived(items) && |hist[k - 1]| == |ms|
    ensures hist[k] == RunMeters(ms, hist[k - 1], items[k - 1].datagram).maxima
  {
    assert DrawnK(ms, items, hist, levels, frames, k - 1);
  }

  /** The frames before frame n were drawn as well. */
  lemma AllDrawnPrefix(ms: seq<Meter.MeterEffect>, items: seq<StreamItem>, hist: seq<seq<Option<real>>>,
                       levels: seq<seq<Option<real>>>, frames: seq<map<Frame.Cell, Rgb>>, n: nat)
    requires AllDrawn(ms, items, hist, levels, frames) && n <= |frames|
    ensures AllDrawn(ms, items, hist[..n + 1], levels[..n], frames[..n])
  {
    var h, ls, fs := hist[..n + 1], levels[..n], frames[..n];
    forall k | 0 <= k < n
      ensures DrawnK(ms, items, h, ls, fs, k)
    {
      assert DrawnK(ms, items, hist, levels, frames, k);
    }
  }

  /** Frame k holds the writes of every meter's tick, in list order, at
      levels in [0, 1] that are present exactly when datagram k reports a
      race. */
  lemma DrawnAt(ms: seq<Meter.MeterEffect>, items: seq<StreamItem>, hist: seq<seq<Option<real>>>,
                levels: seq<seq<Option<real>>>, frames: seq<map<Frame.Cell, Rgb>>, k: nat)
    requires AllDrawn(ms, items, hist, levels, frames) && k < |frames|
    ensures items[k].Received?
    ensures Drawn(Layouts(ms), RaceOn(items[k].datagram), levels[k], frames[k])
  {
    AllDrawnAt(ms, items, hist, levels, frames, k);
    RunMetersDrawn(ms, hist[k], items[k].datagram);
  }

  /** One more frame, drawn without a panic from the next datagram at the
      maxima the earlier ones left. */
  lemma AllDrawnSnoc(ms: seq<Meter.MeterEffect>, items: seq<StreamItem>, hist: seq<seq<Option<real>>>,
                     levels: seq<seq<Option<real>>>, frames: seq<map<Frame.Cell, Rgb>>,
                     l: seq<Option<real>>, f: map<Frame.Cell, Rgb>, after: seq<Option<real>>)
    requires AllDrawn(ms, items, hist, levels, frames) && |frames| < FirstNotReceived(items)
    requires DrawnFrom(ms, items[|frames|].datagram, hist[|frames|], after, l, f)
    ensures AllDrawn(ms, items, hist + [after], levels + [l], frames + [f])
  {
    var n := |frames|;
    forall k | 0 <= k < n + 1
      ensures DrawnK(ms, items, hist + [after], levels + [l], frames + [f], k)
    {
      if k < n {
        assert DrawnK(ms, items, hist, levels, frames, k);
      }
    }
  }

  /** The history of a drawn stream is the fold of the passes over its
      datagrams. */
  lemma {:induction false} HistoryIsFold(ms: seq<Meter.MeterEffect>, items: seq<StreamItem>, hist: seq<seq<Option<real>>>,
                                         levels: seq<seq<Option<real>>>, frames: seq<map<Frame.Cell, Rgb>>, k: nat)
    requires AllDrawn(ms, items, hist, levels, frames) && k < |hist|
    ensures hist[k] == MaximaAfter(ms, hist[0], items, k)
    decreases k
  {
    if k > 0 {
      var j := k - 1;
      HistoryIsFold(ms, items, hist, levels, frames, j);
      HistoryStep(ms, items, hist, levels, frames, j, k);
    }
  }

  /** If the maxima before datagram j are the fold, so are those after it. */
  lemma HistoryStep(ms: seq<Meter.MeterEffect>, items: seq<StreamItem>, hist: seq<seq<Option<real>>>,
                    levels: seq<seq<Option<real>>>, frames: seq<map<Frame.Cell, Rgb>>, j: nat, k: nat)
    requires AllDrawn(ms, items, hist, levels, frames) && k == j + 1 && k < |hist|
    requires hist[j] == MaximaAfter(ms, hist[0], items, j)
    ensures hist[k] == MaximaAfter(ms, hist[0], items, k)
  {
    AllDrawnLeaves(ms, items, hist, levels, frames, k);
    MaximaAfterNext(ms, hist[0], items, k, hist[k - 1]);
  }

  /** The speeds reported during a race by the first `k` datagrams. */
  function RaceSpeeds(items: seq<StreamItem>, k: nat): seq<real>
    requires k <= FirstNotReceived(items)
  {
    if k == 0 then []
    else
      var d := items[k - 1].datagram;
      RaceSpeeds(items, k - 1) + (if RaceOn(d) then [Property.RateCurrent(Property.Speed, d)] else [])
  }

  /** The maxima carried from datagram to datagram: a speed meter that
      raises its maximum holds the seed raised by every speed seen during a
      race (the largest of them, by `RaiseAllIsMax`); every other meter
      keeps the maximum it started with. */
  lemma {:induction false} MaximaCarried(ms: seq<Meter.MeterEffect>, items: seq<StreamItem>, hist: seq<seq<Option<real>>>,
                                         levels: seq<seq<Option<real>>>, frames: seq<map<Frame.Cell, Rgb>>, i: nat)
    requires AllDrawn(ms, items, hist, levels, frames) && i < |ms|
    ensures ms[i].property.query == Property.Speed && ms[i].property.autoRaise && hist[0][i].Some? ==>
      hist[|frames|][i] == Some(Property.RaiseAll(hist[0][i].value, RaceSpeeds(items, |frames|), true))
    ensures ms[i].property.query != Property.Speed || !ms[i].property.autoRaise ==>
      hist[|frames|][i] == hist[0][i]
  {
    if frames != [] {
      var n := |frames| - 1;
      AllDrawnAt(ms, items, hist, levels, frames, n);
      AllDrawnPrefix(ms, items, hist, levels, frames, n);
      MaximaCarried(ms, items, hist[..n + 1], levels[..n], frames[..n], i);
      var d := items[n].datagram;
      var t := RunMeters(ms, hist[n], d);
      RunMetersAt(ms, hist[n], d, i);
      CarryStep(ms[i].property.query, ms[i].property.autoRaise, hist[0][i], hist[n][i], t.levels[i], t.maxima[i],
                d, RaceSpeeds(items, n));
    }
  }

  /** One datagram's step of `MaximaCarried`, for one meter whose update
      stored `after`. */
  lemma CarryStep(q: Property.RateQuery, autoRaise: bool, seed: Option<real>, before: Option<real>,
                  level: Option<real>, after: Option<real>, d: Datagram.Horizon4Datagram, speeds: seq<real>)
    requires Meter.UpdateOutcome(q, before, autoRaise, d) == Ok((level, after))
    requires q == Property.Speed && autoRaise && seed.Some? ==> before == Some(Property.RaiseAll(seed.value, speeds, true))
    requires q != Property.Speed || !autoRaise ==> before == seed
    ensures var speeds' := speeds + (if RaceOn(d) then [Property.RateCurrent(Property.Speed, d)] else []);
      q == Property.Speed && autoRaise && seed.Some? ==> after == Some(Property.RaiseAll(seed.value, speeds', true))
    ensures q != Property.Speed || !autoRaise ==> after == seed
  {
    if RaceOn(d) {
      var c := Property.RateCurrent(Property.Speed, d);
      assert (speeds + [c])[..|speeds|] == speeds;
    } else {
      assert speeds + [] == speeds;
    }
  }

  /** `run`'s loop after k datagrams, over the values it keeps: a tick and
      a frame drawn per datagram, every frame sent, the properties started
      at `m0` and now storing `m`, the maxima the last pass left. */
  ghost predicate Serving(ms: seq<Meter.MeterEffect>, items: seq<StreamItem>, cancelAt: Option<nat>,
                          clock: seq<nat>, applied: seq<bool>, k: nat, ticks: seq<Tick>,
                          frames: seq<map<Frame.Cell, Rgb>>, levels: seq<seq<Option<real>>>,
                          hist: seq<seq<Option<real>>>, m0: seq<Option<real>>, m: seq<Option<real>>)
  {
    Monotone(clock) && |clock| >= |items| && |applied| >= |items|
    && k <= StreamStop(items, cancelAt) && |ticks| == |frames| == |levels| == k
    && ticks == Ticks(clock, k)
    && AllDrawn(ms, items, hist, levels, frames) && hist[0] == m0 && m == hist[k]
    && forall j :: 0 <= j < k ==> applied[j]
  }

  /** What `run` promises once it returns `r`: one tick and one frame per
      datagram up to where the stream stopped ( `StreamStop` ), each frame
      drawn at the maxima the earlier datagrams left; a panic names the
      pass that raised it and the maxima it left stored; every frame but the
      one that failed to send was sent, so a panic or the end of the stream
      comes only after every earlier frame went out. */
  ghost predicate Served(ms: seq<Meter.MeterEffect>, items: seq<StreamItem>, cancelAt: Option<nat>,
                         clock: seq<nat>, applied: seq<bool>, r: Result<(), RunError>, ticks: seq<Tick>,
                         frames: seq<map<Frame.Cell, Rgb>>, levels: seq<seq<Option<real>>>,
                         hist: seq<seq<Option<real>>>, m0: seq<Option<real>>, m: seq<Option<real>>)
  {
    Monotone(clock) && |clock| >= |items| && |applied| >= |items|
    && |ticks| == |frames| == |levels| <= StreamStop(items, cancelAt)
    && ticks == Ticks(clock, |ticks|)
    && AllDrawn(ms, items, hist, levels, frames) && hist[0] == m0
    && (if r.Err? && r.error.Panicked? then
          |frames| < StreamStop(items, cancelAt)
          && PanickedFrom(ms, items[|frames|].datagram, hist[|frames|], m, r.error.panic)
        else m == hist[|frames|])
    && (forall k :: 0 <= k < |frames| - (if r == Err(ApplyFailed) then 1 else 0) ==> applied[k])
    && (r == Ok(()) ==> |frames| == StreamStop(items, cancelAt) && forall k :: 0 <= k < |frames| ==> applied[k])
    && (r == Err(ApplyFailed) ==> |frames| > 0 && !applied[|frames| - 1])
  }

  /** Before the first datagram nothing is drawn. */
  lemma ServingStart(ms: seq<Meter.MeterEffect>, items: seq<StreamItem>, cancelAt: Option<nat>,
                     clock: seq<nat>, applied: seq<bool>, m0: seq<Option<real>>)
    requires Monotone(clock) && |clock| >= |items| && |applied| >= |items| && |m0| == |ms|
    ensures Serving(ms, items, cancelAt, clock, applied, 0, [], [], [], [m0], m0, m0)
  {
  }

  /** Datagram k drawn and its frame sent: the loop goes on. */
  lemma ServingStep(ms: seq<Meter.MeterEffect>, items: seq<StreamItem>, cancelAt: Option<nat>,
                    clock: seq<nat>, applied: seq<bool>, k: nat, ticks: seq<Tick>,
                    frames: seq<map<Frame.Cell, Rgb>>, levels: seq<seq<Option<real>>>,
                    hist: seq<seq<Option<real>>>, m0: seq<Option<real>>, before: seq<Option<real>>,
                    tick: Tick, cells: map<Frame.Cell, Rgb>, l: seq<Option<real>>, m: seq<Option<real>>)
    requires Serving(ms, items, cancelAt, clock, applied, k, ticks, frames, levels, hist, m0, before)
    requires k < StreamStop(items, cancelAt) && tick == TickAt(clock, k) && applied[k]
    requires AllDrawn(ms, items, hist + [m], levels + [l], frames + [cells])
    ensures Serving(ms, items, cancelAt, clock, applied, k + 1, ticks + [tick], frames + [cells],
                    levels + [l], hist + [m], m0, m)
  {
    assert Ticks(clock, k + 1) == Ticks(clock, k) + [TickAt(clock, k)];
  }

  /** The stream stopped with every datagram drawn and sent. */
  lemma ServedAll(ms: seq<Meter.MeterEffect>, items: seq<StreamItem>, cancelAt: Option<nat>,
                  clock: seq<nat>, applied: seq<bool>, k: nat, ticks: seq<Tick>,
                  frames: seq<map<Frame.Cell, Rgb>>, levels: seq<seq<Option<real>>>,
                  hist: seq<seq<Option<real>>>, m0: seq<Option<real>>, m: seq<Option<real>>)
    requires Serving(ms, items, cancelAt, clock, applied, k, ticks, frames, levels, hist, m0, m)
    requires k == StreamStop(items, cancelAt)
    ensures Served(ms, items, cancelAt, clock, applied, Ok(()), ticks, frames, levels, hist, m0, m)
  {
  }

  /** The pass over datagram k panicked: its frame is neither drawn nor
      sent. */
  lemma ServedPanic(ms: seq<Meter.MeterEffect>, items: seq<StreamItem>, cancelAt: Option<nat>,
                    clock: seq<nat>, applied: seq<bool>, k: nat, ticks: seq<Tick>,
                    frames: seq<map<Frame.Cell, Rgb>>, levels: seq<seq<Option<real>>>,
                    hist: seq<seq<Option<real>>>, m0: seq<Option<real>>, before: seq<Option<real>>, m: seq<Option<real>>, e: Meter.Panic)
    requires Serving(ms, items, cancelAt, clock, applied, k, ticks, frames, levels, hist, m0, before)
    requires k < StreamStop(items, cancelAt) && PanickedFrom(ms, items[k].datagram, before, m, e)
    ensures Served(ms, items, cancelAt, clock, applied, Err(Panicked(e)), ticks, frames, levels, hist, m0, m)
  {
  }

  /** Datagram k was drawn but sending its frame failed. */
  lemma ServedApplyFailed(ms: seq<Meter.MeterEffect>, items: seq<StreamItem>, cancelAt: Option<nat>,
                          clock: seq<nat>, applied: seq<bool>, k: nat, ticks: seq<Tick>,
                          frames: seq<map<Frame.Cell, Rgb>>, levels: seq<seq<Option<real>>>,
                          hist: seq<seq<Option<real>>>, m0: seq<Option<real>>, before: seq<Option<real>>,
                          tick: Tick, cells: map<Frame.Cell, Rgb>, l: seq<Option<real>>, m: seq<Option<real>>)
    requires Serving(ms, items, cancelAt, clock, applied, k, ticks, frames, levels, hist, m0, before)
    requires k < StreamStop(items, cancelAt) && tick == TickAt(clock, k) && !applied[k]
    requires AllDrawn(ms, items, hist + [m], levels + [l], frames + [cells])
    ensures Served(ms, items, cancelAt, clock, applied, Err(ApplyFailed), ticks + [tick], frames + [cells],
                   levels + [l], hist + [m], m0, m)
  {
    assert Ticks(clock, k + 1) == Ticks(clock, k) + [TickAt(clock, k)];
  }

  /** `Driver`: the effects, kept in altitude order. */
  class Driver {
    var effects: seq<Effect>

    predicate Valid()
      reads this
    {
      ByAltitude(effects) && OwnProperties(Implementations(effects))
    }

    constructor ()
      ensures effects == [] && Valid()
    {
      effects := [];
    }

    /** `add_effect`: insert after the effects of the same or a lower
        altitude (the match index counted from the start). */
    method AddEffect(e: Effect)
      requires Valid()
      requires forall i :: 0 <= i < |effects| ==> effects[i].implementation.property != e.implementation.property
      modifies this
      ensures Valid()
      ensures effects == Insert(old(effects), e)
    {
      var es := effects;
      var alts := Altitudes(es);
      ByAltitudeSorted(es);
      var search := BinarySearchByKey(alts, e.altitude);
      var insertAt: nat;
      if search.Ok? {
        insertAt := SkipEqual(alts, search.value, e.altitude);
      } else {
        insertAt := search.error;
      }
      InsertIndexIsUpperBound(alts, e.altitude, search);
      assert InsertAt(es, insertAt, e) == Insert(es, e);
      InsertSorted(es, e);
      InsertAtOwns(es, insertAt, e);
      effects := InsertAt(es, insertAt, e);
    }

    /** The body of `from_config`'s loop for one entry: the rate property
        its input names and the meter its output describes. */
    static method BuildEntry(entry: Config.Effect, colors: map<string, Config.Color>)
      returns (r: Result<Effect, BuildError>)
      ensures EntryError(entry, colors).Some? ==> r == Err(EntryError(entry, colors).value)
      ensures EntryError(entry, colors).None? ==>
        r.Ok? && BuiltFrom(r.value, entry, colors) && InitialState(r.value, entry)
        && fresh(r.value.implementation.property)
    {
      match entry.data {
        case Predefined(_) =>
          return Err(PredefinedEffect);
        case Custom(input, output) =>
          var property := Property.QueryProperty(input);
          if property.Err? {
            return Err(PropertyFailed(property.error));
          }
          if property.value.ScoreOf? {
            return Err(NotARate(input.property));
          }
          var layout := Meter.NewLayout(output, colors);
          if layout.Err? {
            return Err(MeterFailed(layout.error));
          }
          r := Ok(Effect(entry.altitude, Meter.MeterEffect(property.value.rate, layout.value)));
      }
    }

    /** The effects of all configuration entries, in order, or the failure
        of the first entry that has none. Each property is a new object. */
    static method BuildEffects(config: Config.ConfigFile) returns (r: Result<seq<Effect>, BuildError>)
      ensures var k := FirstFailing(config.effect, config.colors);
        k < |config.effect| ==> r == Err(EntryError(config.effect[k], config.colors).value)
      ensures FirstFailing(config.effect, config.colors) == |config.effect| ==>
        r.Ok? && BuiltAll(r.value, config.effect, config.colors)
        && (forall i, j :: 0 <= i < j < |r.value| ==> r.value[i].implementation.property != r.value[j].implementation.property)
    {
      var built := [];
      ghost var k := FirstFailing(config.effect, config.colors);
      for i := 0 to |config.effect|
        invariant i <= k
        invariant BuiltAll(built, config.effect[..i], config.colors)
        invariant forall j, j' :: 0 <= j < j' < i ==> built[j].implementation.property != built[j'].implementation.property
      {
        var effect := BuildEntry(config.effect[i], config.colors);
        if effect.Err? {
          return Err(effect.error);
        }
        BuiltAllSnoc(built, effect.value, config.effect, config.colors, i);
        built := built + [effect.value];
      }
      assert config.effect[..|config.effect|] == config.effect;
      r := Ok(built);
    }

    /** `Driver::from_config`: one effect per configuration entry, added
        in configuration order, or the failure of the first entry that has
        none. */
    static method FromConfig(config: Config.ConfigFile) returns (r: Result<Driver, BuildError>, ghost built: seq<Effect>)
      ensures var k := FirstFailing(config.effect, config.colors);
        k < |config.effect| ==> r == Err(EntryError(config.effect[k], config.colors).value)
      ensures FirstFailing(config.effect, config.colors) == |config.effect| ==>
        r.Ok? && fresh(r.value) && r.value.Valid()
        && BuiltAll(built, config.effect, config.colors)
        && (forall i, j :: 0 <= i < j < |built| ==> built[i].implementation.property != built[j].implementation.property)
        && r.value.effects == Layered(built)
    {
      var effects := BuildEffects(config);
      if effects.Err? {
        return Err(effects.error), [];
      }
      var es := effects.value;
      built := es;
      var driver := new Driver();
      driver.AddAll(es);
      r := Ok(driver);
    }

    /** `from_config`'s loop adding the built effects in order to an empty
        driver. */
    method AddAll(es: seq<Effect>)
      requires Valid() && effects == []
      requires forall i, j :: 0 <= i < j < |es| ==> es[i].implementation.property != es[j].implementation.property
      modifies this
      ensures Valid() && effects == Layered(es)
    {
      for i := 0 to |es|
        invariant Valid()
        invariant effects == Layered(es[..i])
      {
        LayeredSnoc(es[..i], es[i]);
        assert es[..i + 1] == es[..i] + [es[i]];
        LayeredAvoids(es, i);
        AddEffect(es[i]);
      }
      assert es[..|es|] == es;
    }

    /** The instances of `run`, one per effect, each bound to its effect. */
    method Start() returns (instances: seq<Meter.MeterEffectInstance>)
      ensures |instances| == |effects|
      ensures forall i :: 0 <= i < |instances| ==>
        fresh(instances[i]) && instances[i].effect == effects[i].implementation && instances[i].current == None
      ensures Distinct(instances)
    {
      instances := [];
      for i := 0 to |effects|
        invariant |instances| == i
        invariant forall j :: 0 <= j < i ==>
          fresh(instances[j]) && instances[j].effect == effects[j].implementation && instances[j].current == None
        invariant forall j, j' :: 0 <= j < j' < i ==> instances[j] != instances[j']
      {
        var instance := new Meter.MeterEffectInstance(effects[i].implementation);
        instances := instances + [instance];
      }
    }

    /** The body of `run`'s loop for one datagram: a fresh frame, then
        `update` and `tick` on every instance in list order. The levels and
        the stored maxima are those of `RunMeters` from the maxima before
        the tick; the frame holds its writes. */
    static method RunTick(instances: seq<Meter.MeterEffectInstance>, d: Datagram.Horizon4Datagram)
      returns (r: Result<(), Meter.Panic>, state: Frame.ChromaState, ghost levels: seq<Option<real>>)
      requires Distinct(instances) && OwnProperties(InstanceEffects(instances))
      modifies set i | 0 <= i < |instances| :: instances[i]
      modifies set i | 0 <= i < |instances| :: instances[i].effect.property
      ensures fresh(state)
      ensures levels == RunMeters(InstanceEffects(instances), old(Maxima(InstanceEffects(instances))), d).levels
      ensures r.Ok? ==> DrawnFrom(InstanceEffects(instances), d, old(Maxima(InstanceEffects(instances))),
                                  Maxima(InstanceEffects(instances)), levels, state.cells)
      ensures r.Err? ==> PanickedFrom(InstanceEffects(instances), d, old(Maxima(InstanceEffects(instances))),
                                      Maxima(InstanceEffects(instances)), r.error)
      ensures forall i :: 0 <= i < |instances| ==>
        instances[i].current == if i < |levels| then levels[i] else old(instances[i].current)
    {
      ghost var ms := InstanceEffects(instances);
      ghost var m0 := Maxima(ms);
      ghost var c0 := Currents(instances);
      ghost var ss := Stages(ms, m0, d);
      assert RunMeters(ms, old(Maxima(ms)), d) == Pass(ss, m0);
      assert ss[..0] == [] && m0[..0] == [];
      ghost var t, k;
      r, state, t, k := TickEach(instances, d, ms, m0, c0, ss);
      if r.Err? {
        Stopped(instances, ms, m0, c0, ss, k, t);
      } else {
        assert ss[..k] == ss && m0[..k] == m0;
        assert Maxima(ms) == t.maxima;
      }
      levels := t.levels;
    }

    /** `run`'s inner loop over the meters, from the properties storing `m0`
        and the meters showing `c0`: it stops after the first k meters, whose
        pass is `t`, either at the end or at the first panic. */
    static method TickEach(instances: seq<Meter.MeterEffectInstance>, d: Datagram.Horizon4Datagram,
                           ghost ms: seq<Meter.MeterEffect>, ghost m0: seq<Option<real>>,
                           ghost c0: seq<Option<real>>, ghost ss: seq<Stage>)
      returns (r: Result<(), Meter.Panic>, state: Frame.ChromaState, ghost t: TickOutcome, ghost k: nat)
      requires Distinct(instances) && ms == InstanceEffects(instances) && OwnProperties(ms)
      requires |m0| == |ms| && ss == Stages(ms, m0, d) && Ticked(instances, ms, m0, c0, ss, 0, Pass([], []), map[])
      modifies set i | 0 <= i < |instances| :: instances[i]
      modifies set i | 0 <= i < |instances| :: instances[i].effect.property
      ensures fresh(state)
      ensures k <= |instances| && t == Pass(ss[..k], m0[..k])
      ensures r.Ok? ==> k == |instances| && Ticked(instances, ms, m0, c0, ss, k, t, state.cells)
      ensures r.Err? ==> t.writes.Err? && r.error == t.writes.error && Halted(instances, ms, m0, c0, k, t)
    {
      state := new Frame.ChromaState();
      t := Pass([], []);
      for i := 0 to |instances|
        invariant fresh(state)
        invariant Ticked(instances, ms, m0, c0, ss, i, t, state.cells)
      {
        ghost var next;
        r, next := Step(instances, i, state, d, ms, m0, c0, ss, t);
        if r.Err? {
          return r, state, next, i + 1;
        }
        t := next;
      }
      r, k := Ok(()), |instances|;
    }

    /** Meter i of `run`'s inner loop, after the pass `p` over the meters
        before it: the pass `next` over the meters up to i, with only meter
        i's level and maximum changed. */
    static method Step(instances: seq<Meter.MeterEffectInstance>, i: nat, state: Frame.ChromaState,
                       d: Datagram.Horizon4Datagram, ghost ms: seq<Meter.MeterEffect>, ghost m0: seq<Option<real>>,
                       ghost c0: seq<Option<real>>, ghost ss: seq<Stage>, ghost p: TickOutcome)
      returns (r: Result<(), Meter.Panic>, ghost next: TickOutcome)
      requires i < |instances| && Distinct(instances) && ms == InstanceEffects(instances) && OwnProperties(ms)
      requires |m0| == |ms| && ss == Stages(ms, m0, d) && Ticked(instances, ms, m0, c0, ss, i, p, state.cells)
      modifies instances[i], instances[i].effect.property, state
      ensures next == Pass(ss[..i + 1], m0[..i + 1])
      ensures (r.Ok? <==> next.writes.Ok?) && (r.Err? ==> r.error == next.writes.error)
      ensures r.Ok? ==> Ticked(instances, ms, m0, c0, ss, i + 1, next, state.cells)
      ensures r.Err? ==> Halted(instances, ms, m0, c0, i + 1, next)
    {
      assert ss[..i + 1][..i] == ss[..i] && m0[..i + 1][..i] == m0[..i];
      assert ss[i] == StageOf(ms[i], m0[i], d);
      next := Pass(ss[..i + 1], m0[..i + 1]);
      assert next == Next(p, ss[i], m0[i]);
      r := TickMeter(instances[i], state, d, p, m0[i]);
      assert next.maxima == p.maxima + [next.maxima[i]];
      assert next.levels[..i] == p.levels;
    }

    /** One meter of `run`'s inner loop: `update`, then, if that succeeded,
        `tick` into the frame, which holds the writes of the pass `p` so
        far; the meter's property stores `stored`. */
    static method TickMeter(instance: Meter.MeterEffectInstance, state: Frame.ChromaState, d: Datagram.Horizon4Datagram,
                            ghost p: TickOutcome, ghost stored: Option<real>)
      returns (r: Result<(), Meter.Panic>)
      requires p.writes.Ok? && stored == instance.effect.property.maxValue
      requires state.cells == Frame.Apply(map[], p.writes.value)
      modifies instance, instance.effect.property, state
      ensures var s := StageOf(instance.effect, stored, d);
        var next := Next(p, s, stored);
        instance.current == (if s.update.Ok? then s.update.value.0 else old(instance.current))
        && instance.effect.property.maxValue == next.maxima[|p.maxima|]
        && (r.Ok? <==> next.writes.Ok?) && (r.Err? ==> r.error == next.writes.error)
        && (r.Ok? ==> state.cells == Frame.Apply(map[], next.writes.value))
    {
      ghost var s := StageOf(instance.effect, stored, d);
      r := instance.Update(d);
      if r.Ok? {
        r := instance.Tick(state);
        if r.Ok? {
          Frame.ApplyConcat(map[], p.writes.value, s.writes.value);
        }
      }
    }

    /** One pass of `run`'s loop, for datagram k: its tick, from the time
        of the previous one, and its frame, drawn by `RunMeters` at the
        maxima `hist[k]` the earlier datagrams left. */
    static method ServeOne(instances: seq<Meter.MeterEffectInstance>, items: seq<StreamItem>, clock: seq<nat>,
                           k: nat, last: Option<nat>, ghost hist: seq<seq<Option<real>>>,
                           ghost levels: seq<seq<Option<real>>>, ghost frames: seq<map<Frame.Cell, Rgb>>)
      returns (r: Result<(), Meter.Panic>, tick: Tick, cells: map<Frame.Cell, Rgb>, ghost tickLevels: seq<Option<real>>)
      requires Monotone(clock) && k < FirstNotReceived(items) && |items| <= |clock|
      requires last == if k == 0 then None else Some(clock[k - 1])
      requires Distinct(instances) && OwnProperties(InstanceEffects(instances))
      requires |frames| == k && AllDrawn(InstanceEffects(instances), items, hist, levels, frames)
      requires Maxima(InstanceEffects(instances)) == hist[k]
      modifies set i | 0 <= i < |instances| :: instances[i]
      modifies set i | 0 <= i < |instances| :: instances[i].effect.property
      ensures tick == TickAt(clock, k)
      ensures r.Ok? ==> AllDrawn(InstanceEffects(instances), items, hist + [Maxima(InstanceEffects(instances))],
                                 levels + [tickLevels], frames + [cells])
      ensures r.Err? ==> PanickedFrom(InstanceEffects(instances), items[k].datagram, hist[k],
                                      Maxima(InstanceEffects(instances)), r.error)
    {
      var now := clock[k];
      tick := Tick(now, if last.Some? then Some(now - last.value) else None);
      var state;
      r, state, tickLevels := RunTick(instances, items[k].datagram);
      cells := state.cells;
      if r.Ok? {
        AllDrawnSnoc(InstanceEffects(instances), items, hist, levels, frames, tickLevels, cells,
                     Maxima(InstanceEffects(instances)));
      }
    }

    /** `run`'s loop over the stream, for the started instances: one tick
        per datagram until the stream ends, fails or is cancelled (the
        index `StreamStop` names), or a tick panics, or sending a frame
        fails. `clock[k]` is the time of the k-th tick and `applied[k]`
        whether sending its frame succeeded. `hist` starts at the maxima
        the properties stored and holds those every drawn frame left; the
        properties end with the maxima of the last pass. */
    static method Serve(instances: seq<Meter.MeterEffectInstance>, items: seq<StreamItem>, cancelAt: Option<nat>,
                        clock: seq<nat>, applied: seq<bool>)
      returns (r: Result<(), RunError>, ticks: seq<Tick>, frames: seq<map<Frame.Cell, Rgb>>,
               ghost levels: seq<seq<Option<real>>>, ghost hist: seq<seq<Option<real>>>)
      requires |clock| >= |items| && |applied| >= |items|
      requires Monotone(clock)
      requires Distinct(instances) && OwnProperties(InstanceEffects(instances))
      modifies set i | 0 <= i < |instances| :: instances[i]
      modifies set i | 0 <= i < |instances| :: instances[i].effect.property
      ensures Served(InstanceEffects(instances), items, cancelAt, clock, applied, r, ticks, frames, levels, hist,
                     old(Maxima(InstanceEffects(instances))), Maxima(InstanceEffects(instances)))
    {
      ghost var ms := InstanceEffects(instances);
      ghost var m0 := Maxima(ms);
      var stop := StreamStop(items, cancelAt);
      ticks, frames, levels, hist := [], [], [], [m0];
      ServingStart(ms, items, cancelAt, clock, applied, m0);
      var last: Option<nat> := None;
      var k := 0;
      while k < stop
        invariant Serving(ms, items, cancelAt, clock, applied, k, ticks, frames, levels, hist, m0, Maxima(ms))
        invariant last == if k == 0 then None else Some(clock[k - 1])
        decreases stop - k
      {
        var t, tick, cells, tickLevels := ServeOne(instances, items, clock, k, last, hist, levels, frames);
        if t.Err? {
          ServedPanic(ms, items, cancelAt, clock, applied, k, ticks, frames, levels, hist, m0, hist[k], Maxima(ms), t.error);
          return Err(Panicked(t.error)), ticks, frames, levels, hist;
        }
        if !applied[k] {
          ServedApplyFailed(ms, items, cancelAt, clock, applied, k, ticks, frames, levels, hist, m0, hist[k],
                            tick, cells, tickLevels, Maxima(ms));
          return Err(ApplyFailed), ticks + [tick], frames + [cells], levels + [tickLevels], hist + [Maxima(ms)];
        }
        ServingStep(ms, items, cancelAt, clock, applied, k, ticks, frames, levels, hist, m0, hist[k],
                    tick, cells, tickLevels, Maxima(ms));
        last := Some(tick.now);
        ticks, frames, levels, hist := ticks + [tick], frames + [cells], levels + [tickLevels], hist + [Maxima(ms)];
        k := k + 1;
      }
      ServedAll(ms, items, cancelAt, clock, applied, k, ticks, frames, levels, hist, m0, Maxima(ms));
      r := Ok(());
    }

    /** `run`: start one instance per effect, then draw and send one frame
        per datagram. */
    method Run(items: seq<StreamItem>, cancelAt: Option<nat>, clock: seq<nat>, applied: seq<bool>)
      returns (r: Result<(), RunError>, ticks: seq<Tick>, frames: seq<map<Frame.Cell, Rgb>>,
               ghost levels: seq<seq<Option<real>>>, ghost hist: seq<seq<Option<real>>>)
      requires Valid()
      requires |clock| >= |items| && |applied| >= |items|
      requires Monotone(clock)
      modifies set i | 0 <= i < |effects| :: effects[i].implementation.property
      ensures |ticks| == |frames| == |levels| <= StreamStop(items, cancelAt)
      ensures ticks == Ticks(clock, |ticks|)
      ensures AllDrawn(Implementations(effects), items, hist, levels, frames)
      ensures hist[0] == old(Maxima(Implementations(effects)))
      ensures if r.Err? && r.error.Panicked? then
          |frames| < StreamStop(items, cancelAt)
          && PanickedFrom(Implementations(effects), items[|frames|].datagram, hist[|frames|], Maxima(Implementations(effects)), r.error.panic)
        else Maxima(Implementations(effects)) == hist[|frames|]
      ensures forall k :: 0 <= k < |frames| - (if r == Err(ApplyFailed) then 1 else 0) ==> applied[k]
      ensures r == Ok(()) ==> |frames| == StreamStop(items, cancelAt) && forall k :: 0 <= k < |frames| ==> applied[k]
      ensures r == Err(ApplyFailed) ==> |frames| > 0 && !applied[|frames| - 1]
    {
      var instances := Start();
      assert InstanceEffects(instances) == Implementations(effects);
      r, ticks, frames, levels, hist := Serve(instances, items, cancelAt, clock, applied);
    }
  }

  predicate Distinct(instances: seq<Meter.MeterEffectInstance>)
  {
    forall i, j :: 0 <= i < j < |instances| ==> instances[i] != instances[j]
  }

  /** The meters of the instances, in order. */
  function InstanceEffects(instances: seq<Meter.MeterEffectInstance>): (ms: seq<Meter.MeterEffect>)
    ensures |ms| == |instances|
    ensures forall i :: 0 <= i < |instances| ==> ms[i] == instances[i].effect
  {
    seq(|instances|, i requires 0 <= i < |instances| => instances[i].effect)
  }

  /** The levels the instances hold, in order. */
  function Currents(instances: seq<Meter.MeterEffectInstance>): (c: seq<Option<real>>)
    reads set i | 0 <= i < |instances| :: instances[i]
    ensures |c| == |instances|
    ensures forall i :: 0 <= i < |instances| ==> c[i] == instances[i].current
  {
    seq(|instances|, i requires 0 <= i < |instances| reads set j | 0 <= j < |instances| :: instances[j] => instances[i].current)
  }

  /** `RunTick`'s loop after the first i meters: the pass `p` over them
      holds no panic, the frame holds its writes, they store its levels and
      maxima, and every later meter still holds its level `c0` and maximum
      `m0`. */
  ghost predicate Ticked(instances: seq<Meter.MeterEffectInstance>, ms: seq<Meter.MeterEffect>,
                         m0: seq<Option<real>>, c0: seq<Option<real>>, ss: seq<Stage>,
                         i: nat, p: TickOutcome, cells: map<Frame.Cell, Rgb>)
    reads set j | 0 <= j < |instances| :: instances[j]
    reads set j | 0 <= j < |instances| :: instances[j].effect.property
  {
    i <= |instances| == |ms| == |m0| == |c0| == |ss|
    && (forall j :: 0 <= j < |instances| ==> ms[j] == instances[j].effect)
    && p == Pass(ss[..i], m0[..i]) && p.writes.Ok? && cells == Frame.Apply(map[], p.writes.value)
    && (forall j :: 0 <= j < |instances| ==>
          instances[j].effect.property.maxValue == if j < i then p.maxima[j] else m0[j])
    && (forall j :: 0 <= j < |instances| ==>
          instances[j].current == if j < i then p.levels[j] else c0[j])
  }

  /** `RunTick`'s loop stopped by a panic at meter k - 1: the pass `t` over
      the first k meters, whose levels and maxima they store; every later
      meter still holds its level `c0` and maximum `m0`. */
  ghost predicate Halted(instances: seq<Meter.MeterEffectInstance>, ms: seq<Meter.MeterEffect>,
                         m0: seq<Option<real>>, c0: seq<Option<real>>, k: nat, t: TickOutcome)
    reads set j | 0 <= j < |instances| :: instances[j]
    reads set j | 0 <= j < |instances| :: instances[j].effect.property
  {
    k <= |instances| == |ms| == |m0| == |c0| && |t.maxima| == k && |t.levels| <= k
    && (forall j :: 0 <= j < |instances| ==> ms[j] == instances[j].effect)
    && (forall j :: 0 <= j < |instances| ==>
          instances[j].effect.property.maxValue == if j < k then t.maxima[j] else m0[j])
    && (forall j :: 0 <= j < |instances| ==>
          instances[j].current == if j < |t.levels| then t.levels[j] else c0[j])
  }

  /** A pass stopped at meter k - 1 is the whole pass: the meters store its
      maxima. */
  lemma Stopped(instances: seq<Meter.MeterEffectInstance>, ms: seq<Meter.MeterEffect>,
                m0: seq<Option<real>>, c0: seq<Option<real>>, ss: seq<Stage>, k: nat, t: TickOutcome)
    requires Halted(instances, ms, m0, c0, k, t)
    requires |ss| == |ms| && t == Pass(ss[..k], m0[..k]) && t.writes.Err?
    ensures Pass(ss, m0) == TickOutcome(t.levels, t.maxima + m0[k..], t.writes)
    ensures Maxima(ms) == Pass(ss, m0).maxima
  {
    PassStops(ss, m0, k);
    forall j | 0 <= j < |ms|
      ensures Maxima(ms)[j] == (t.maxima + m0[k..])[j]
    {
      assert ms[j].property == instances[j].effect.property;
    }
  }

  /** Inserting an effect whose property no other effect has keeps every
      property owned by one effect. */
  lemma InsertAtOwns(es: seq<Effect>, u: nat, e: Effect)
    requires u <= |es| && OwnProperties(Implementations(es))
    requires forall i :: 0 <= i < |es| ==> es[i].implementation.property != e.implementation.property
    ensures OwnProperties(Implementations(InsertAt(es, u, e)))
  {
    var r := InsertAt(es, u, e);
    assert forall j :: 0 <= j < |r| ==> r[j] == if j < u then es[j] else if j == u then e else es[j - 1];
  }

  /** The effects layered from the first `i` entries do not hold the
      property of entry `i`, when every entry has its own. */
  lemma LayeredAvoids(es: seq<Effect>, i: nat)
    requires i < |es| && forall j, j' :: 0 <= j < j' < |es| ==> es[j].implementation.property != es[j'].implementation.property
    ensures forall j :: 0 <= j < |Layered(es[..i])| ==> Layered(es[..i])[j].implementation.property != es[i].implementation.property
  {
    LayeredSortedStable(es[..i]);
    forall j | 0 <= j < |Layered(es[..i])|
      ensures Layered(es[..i])[j].implementation.property != es[i].implementation.property
    {
      assert Layered(es[..i])[j] in multiset(es[..i]);
      var m :| 0 <= m < i && es[m] == Layered(es[..i])[j];
    }
  }
}
