/**
 * The backtest engine: a scan over indices that fires a trigger, keeps the
 * fired indices at least `cooldown` apart, and optionally enriches each hit.
 * Every cooldown backtest of the indicators is this one scan with its own
 * trigger.
 */
module Engine {
  import opened Common

  /** A fired index with the row built for it. */
  datatype Event<R> = Event(index: nat, row: R)

  function Indices<R>(events: seq<Event<R>>): (r: seq<nat>)
    ensures |r| == |events|
    ensures forall k :: 0 <= k < |events| ==> r[k] == events[k].index
  {
    seq(|events|, k requires 0 <= k < |events| => events[k].index)
  }

  function Rows<R>(events: seq<Event<R>>): (r: seq<R>)
    ensures |r| == |events|
    ensures forall k :: 0 <= k < |events| ==> r[k] == events[k].row
  {
    seq(|events|, k requires 0 <= k < |events| => events[k].row)
  }

  /**
   * The scan from index `i` on, `last` being the previously fired index
   * (`None` for the source's `-Infinity`).
   */
  function ScanFrom<R>(trigger: nat -> Option<R>, cooldown: int, n: nat, i: nat, last: Option<nat>)
    : seq<Event<R>>
    decreases n - i
  {
    if i >= n then []
    else if last.Some? && i - last.value < cooldown then ScanFrom(trigger, cooldown, n, i + 1, last)
    else match trigger(i)
      case None => ScanFrom(trigger, cooldown, n, i + 1, last)
      case Some(row) => [Event(i, row)] + ScanFrom(trigger, cooldown, n, i + 1, Some(i))
  }

  function ScanSpec<R>(trigger: nat -> Option<R>, cooldown: int, n: nat): seq<Event<R>>
  {
    ScanFrom(trigger, cooldown, n, 0, None)
  }

  /** The index loop: skip inside the cooldown window, otherwise fire when the trigger yields a row. */
  method Scan<R>(trigger: nat -> Option<R>, cooldown: int, n: nat) returns (events: seq<Event<R>>)
    ensures events == ScanSpec(trigger, cooldown, n)
  {
    events := [];
    var last: Option<nat> := None;
    var i := 0;
    while i < n
      invariant 0 <= i <= n
      invariant last.Some? ==> last.value < i
      invariant events + ScanFrom(trigger, cooldown, n, i, last) == ScanSpec(trigger, cooldown, n)
    {
      if !(last.Some? && i - last.value < cooldown) {
        var row := trigger(i);
        if row.Some? {
          assert ScanFrom(trigger, cooldown, n, i, last)
            == [Event(i, row.value)] + ScanFrom(trigger, cooldown, n, i + 1, Some(i));
          events := events + [Event(i, row.value)];
          last := Some(i);
        }
      }
      i := i + 1;
    }
  }

  // ---------------------------------------------------------------------------
  // What the scan guarantees.

  /** Fired indices are in range, strictly increasing, pairwise at least `cooldown` apart, and carry their trigger's row. */
  ghost predicate WellSpaced<R>(events: seq<Event<R>>, trigger: nat -> Option<R>, cooldown: int, lo: nat, n: nat)
  {
    && (forall k :: 0 <= k < |events| ==> lo <= events[k].index < n && trigger(events[k].index) == Some(events[k].row))
    && (forall k, l :: 0 <= k < l < |events| ==>
          events[k].index < events[l].index && events[l].index - events[k].index >= cooldown)
  }

  lemma {:induction false} ScanFromFacts<R>(trigger: nat -> Option<R>, cooldown: int, n: nat, i: nat, last: Option<nat>)
    requires i <= n
    requires last.Some? ==> last.value < i
    ensures WellSpaced(ScanFrom(trigger, cooldown, n, i, last), trigger, cooldown, i, n)
    ensures var e := ScanFrom(trigger, cooldown, n, i, last);
      last.Some? && |e| > 0 ==> e[0].index - last.value >= cooldown
    ensures |ScanFrom(trigger, cooldown, n, i, last)| <= n - i
    decreases n - i
  {
    if i < n {
      if (last.Some? && i - last.value < cooldown) || trigger(i).None? {
        ScanFromFacts(trigger, cooldown, n, i + 1, last);
        assert ScanFrom(trigger, cooldown, n, i, last) == ScanFrom(trigger, cooldown, n, i + 1, last);
      } else {
        ScanFromFacts(trigger, cooldown, n, i + 1, Some(i));
        var rest := ScanFrom(trigger, cooldown, n, i + 1, Some(i));
        var x := Event(i, trigger(i).value);
        assert [x] + rest == ScanFrom(trigger, cooldown, n, i, last);
        WellSpacedCons(x, rest, trigger, cooldown, i, n);
      }
    }
  }

  lemma WellSpacedCons<R>(x: Event<R>, rest: seq<Event<R>>, trigger: nat -> Option<R>, cooldown: int, i: nat, n: nat)
    requires x.index == i < n && trigger(i) == Some(x.row)
    requires WellSpaced(rest, trigger, cooldown, i + 1, n)
    requires |rest| > 0 ==> rest[0].index - i >= cooldown
    ensures WellSpaced([x] + rest, trigger, cooldown, i, n)
  {
    var e := [x] + rest;
    forall k | 0 <= k < |e| ensures i <= e[k].index < n && trigger(e[k].index) == Some(e[k].row) {
      if k > 0 { assert e[k] == rest[k - 1]; }
    }
    forall k, l | 0 <= k < l < |e|
      ensures e[k].index < e[l].index && e[l].index - e[k].index >= cooldown
    {
      assert e[l] == rest[l - 1];
      if k == 0 {
        if l > 1 { assert rest[0].index < rest[l - 1].index; }
      } else {
        assert e[k] == rest[k - 1];
      }
    }
  }

  /** Rows fire in strictly increasing index order, each pair at least `cooldown` apart, all in `[0, n)`. */
  lemma ScanSpaced<R>(trigger: nat -> Option<R>, cooldown: int, n: nat)
    ensures WellSpaced(ScanSpec(trigger, cooldown, n), trigger, cooldown, 0, n)
    ensures |ScanSpec(trigger, cooldown, n)| <= n
  {
    ScanFromFacts(trigger, cooldown, n, 0, None);
  }

  /** No fired index lies in the cooldown window before `j`. */
  ghost predicate ClearOf<R>(events: seq<Event<R>>, j: nat, cooldown: int)
  {
    forall k :: 0 <= k < |events| && events[k].index < j ==> j - events[k].index >= cooldown
  }

  lemma ClearOfCons<R>(x: Event<R>, rest: seq<Event<R>>, j: nat, cooldown: int)
    requires x.index < j
    ensures ClearOf([x] + rest, j, cooldown) <==> j - x.index >= cooldown && ClearOf(rest, j, cooldown)
  {
    var e := [x] + rest;
    forall k | 0 <= k < |rest| ensures e[k + 1] == rest[k] { }
    if ClearOf(e, j, cooldown) {
      assert e[0] == x;
      forall k | 0 <= k < |rest| && rest[k].index < j ensures j - rest[k].index >= cooldown {
        assert e[k + 1] == rest[k];
      }
    }
  }

  lemma IndicesCons<R>(x: Event<R>, rest: seq<Event<R>>)
    ensures Indices([x] + rest) == [x.index] + Indices(rest)
  {
  }

  ghost predicate Eligible<R>(trigger: nat -> Option<R>, cooldown: int, n: nat, i: nat, last: Option<nat>, j: nat)
  {
    && i <= j < n && trigger(j).Some?
    && (last.Some? ==> j - last.value >= cooldown)
    && ClearOf(ScanFrom(trigger, cooldown, n, i, last), j, cooldown)
  }

  lemma {:induction false} ScanFromFires<R>(trigger: nat -> Option<R>, cooldown: int, n: nat, i: nat, last: Option<nat>, j: nat)
    requires i <= n
    requires last.Some? ==> last.value < i
    ensures j in Indices(ScanFrom(trigger, cooldown, n, i, last)) <==> Eligible(trigger, cooldown, n, i, last, j)
    decreases n - i
  {
    if i < n {
      if (last.Some? && i - last.value < cooldown) || trigger(i).None? {
        ScanFromFires(trigger, cooldown, n, i + 1, last, j);
        ScanFromFacts(trigger, cooldown, n, i + 1, last);
        assert ScanFrom(trigger, cooldown, n, i, last) == ScanFrom(trigger, cooldown, n, i + 1, last);
      } else {
        ScanFromFiresHit(trigger, cooldown, n, i, last, j);
      }
    }
  }

  lemma {:induction false} ScanFromFiresHit<R>(trigger: nat -> Option<R>, cooldown: int, n: nat, i: nat, last: Option<nat>, j: nat)
    requires i < n
    requires last.Some? ==> last.value < i
    requires !(last.Some? && i - last.value < cooldown) && trigger(i).Some?
    ensures j in Indices(ScanFrom(trigger, cooldown, n, i, last)) <==> Eligible(trigger, cooldown, n, i, last, j)
    decreases n - i, 0
  {
    var rest := ScanFrom(trigger, cooldown, n, i + 1, Some(i));
    var x := Event(i, trigger(i).value);
    var e := [x] + rest;
    assert e == ScanFrom(trigger, cooldown, n, i, last);
    ScanFromFires(trigger, cooldown, n, i + 1, Some(i), j);
    ScanFromFacts(trigger, cooldown, n, i + 1, Some(i));
    IndicesCons(x, rest);
    if j > i {
      ClearOfCons(x, rest, j, cooldown);
    } else if j == i {
      assert ClearOf(e, j, cooldown) by {
        forall k | 0 <= k < |e| ensures e[k].index >= i {
          if k > 0 { assert e[k] == rest[k - 1]; }
        }
      }
    } else {
      assert j !in Indices(rest);
    }
  }

  /**
   * An index fires iff it is in range, its trigger yields a row, and it lies
   * outside the cooldown window of every earlier fired index (equivalently,
   * of the previous one).
   */
  lemma ScanFires<R>(trigger: nat -> Option<R>, cooldown: int, n: nat, j: nat)
    ensures var e := ScanSpec(trigger, cooldown, n);
      j in Indices(e) <==> j < n && trigger(j).Some? && ClearOf(e, j, cooldown)
  {
    ScanFromFires(trigger, cooldown, n, 0, None, j);
  }

  /** The first index whose trigger yields a row always fires. */
  lemma ScanFirstTriggerFires<R>(trigger: nat -> Option<R>, cooldown: int, n: nat, j: nat)
    requires j < n && trigger(j).Some?
    requires forall i :: 0 <= i < j ==> trigger(i).None?
    ensures j in Indices(ScanSpec(trigger, cooldown, n))
  {
    ScanFires(trigger, cooldown, n, j);
    ScanSpaced(trigger, cooldown, n);
  }

  /** With cooldown 5 and a trigger holding at {0, 1, 2, 10, 11}, rows fire only at 0 and 10. */
  lemma ScanExample()
    ensures var trigger := (i: nat) => if i in {0, 1, 2, 10, 11} then Some(i) else None;
      Indices(ScanSpec(trigger, 5, 12)) == [0, 10]
  {
    var trigger := (i: nat) => if i in {0, 1, 2, 10, 11} then Some(i) else None;
    assert ScanFrom(trigger, 5, 12, 12, Some(10)) == [];
    assert ScanFrom(trigger, 5, 12, 11, Some(10)) == [];
    assert ScanFrom(trigger, 5, 12, 10, Some(0)) == [Event(10, 10)];
    assert ScanFrom(trigger, 5, 12, 9, Some(0)) == [Event(10, 10)];
    assert ScanFrom(trigger, 5, 12, 8, Some(0)) == [Event(10, 10)];
    assert ScanFrom(trigger, 5, 12, 7, Some(0)) == [Event(10, 10)];
    assert ScanFrom(trigger, 5, 12, 6, Some(0)) == [Event(10, 10)];
    assert ScanFrom(trigger, 5, 12, 5, Some(0)) == [Event(10, 10)];
    assert ScanFrom(trigger, 5, 12, 4, Some(0)) == [Event(10, 10)];
    assert ScanFrom(trigger, 5, 12, 3, Some(0)) == [Event(10, 10)];
    assert ScanFrom(trigger, 5, 12, 2, Some(0)) == [Event(10, 10)];
    assert ScanFrom(trigger, 5, 12, 1, Some(0)) == [Event(10, 10)];
    assert ScanFrom(trigger, 5, 12, 0, None) == [Event(0, 0), Event(10, 10)];
  }

  // ---------------------------------------------------------------------------
  // runBacktest: the configuration the indicators pass in.

  datatype Column = Column(key: string, heading: string)

  datatype Config<!P, !C, !R> = Config(
    title: string,
    columns: seq<Column>,
    trigger: (seq<P>, nat, seq<C>) -> Option<R>,
    enrich: Option<(R, nat, seq<P>) -> R>,
    cooldownDays: Option<int>)

  datatype Table<R> = Table(title: string, columns: seq<string>, rows: seq<R>)

  /** `config.cooldownDays ?? 30`. */
  function Cooldown<P, C, R>(config: Config<P, C, R>): (c: int)
    ensures config.cooldownDays.None? ==> c == 30
    ensures config.cooldownDays.Some? ==> c == config.cooldownDays.value
  {
    config.cooldownDays.GetOr(30)
  }

  /** The row the engine records for index `i`: the trigger's row, passed through `enrich` when given. */
  function EngineTrigger<P, C, R>(prices: seq<P>, computed: seq<C>, config: Config<P, C, R>): nat -> Option<R>
  {
    (i: nat) =>
      match config.trigger(prices, i, computed)
      case None => None
      case Some(row) => Some(if config.enrich.Some? then config.enrich.value(row, i, prices) else row)
  }

  method RunBacktest<P, C, R>(prices: seq<P>, computed: seq<C>, config: Config<P, C, R>) returns (t: Table<R>)
    ensures t.title == config.title
    ensures |t.columns| == |config.columns|
    ensures forall k :: 0 <= k < |t.columns| ==> t.columns[k] == config.columns[k].heading
    ensures t.rows == Rows(ScanSpec(EngineTrigger(prices, computed, config), Cooldown(config), |prices|))
  {
    var events := Scan(EngineTrigger(prices, computed, config), Cooldown(config), |prices|);
    var labels := seq(|config.columns|, k requires 0 <= k < |config.columns| => config.columns[k].heading);
    t := Table(config.title, labels, Rows(events));
  }

  /**
   * Each engine row is `enrich(trigger row)` (or the trigger row) of an index
   * whose trigger fired, in increasing index order, at least `cooldown` apart.
   */
  lemma EngineRows<P, C, R>(prices: seq<P>, computed: seq<C>, config: Config<P, C, R>)
    ensures var e := ScanSpec(EngineTrigger(prices, computed, config), Cooldown(config), |prices|);
      && |e| <= |prices|
      && (forall k :: 0 <= k < |e| ==>
            && e[k].index < |prices|
            && config.trigger(prices, e[k].index, computed).Some?
            && var row := config.trigger(prices, e[k].index, computed).value;
               e[k].row == if config.enrich.Some? then config.enrich.value(row, e[k].index, prices) else row)
      && (forall k, l :: 0 <= k < l < |e| ==>
            e[k].index < e[l].index && e[l].index - e[k].index >= Cooldown(config))
  {
    var trigger := EngineTrigger(prices, computed, config);
    ScanSpaced(trigger, Cooldown(config), |prices|);
  }
}
