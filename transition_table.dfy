/** The "bpodifier" of airtrack/data/utils.py: it rewrites a parsed state
    transition table (source state -> destination state -> event) so that
    every event is one the Bpod board understands. An event that already is a
    Bpod event is kept, a parenthesised event such as "( 3 s )" becomes a state
    timer, and any other event is replaced by the next free serial event.

    Python dictionaries keep insertion order and have distinct keys; a table is
    therefore a sequence of (key, value) pairs whose keys are distinct. */
module TransitionTable {
  import opened Errors

  /** A bpodified event: a Bpod event name, or a state timer in seconds. */
  datatype TransitionEvent = Named(name: string) | Timer(seconds: real)

  /** destination state -> event, as parsed from the table file. */
  type Transitions = seq<(string, string)>
  /** source state -> transitions. */
  type Table = seq<(string, Transitions)>
  type BpodTransitions = seq<(string, TransitionEvent)>
  type BpodTable = seq<(string, BpodTransitions)>

  /** One attribute of `Bpod.Events` as `dir` lists it. */
  datatype Attribute = Attribute(name: string, isCallable: bool)

  /** The exceptions `bpodify_state_transition_table` can raise: a serial event
      whose name has no integer sort key, or an empty pool on `pop(0)`. */
  datatype BpodifyError = BadSerialEventName | NoSerialEventLeft

  const SERIAL: string := "Serial"

  predicate Distinct<T(==)>(s: seq<T>)
  {
    forall i, j :: 0 <= i < j < |s| ==> s[i] != s[j]
  }

  predicate StartsWith(s: string, prefix: string)
  {
    |prefix| <= |s| && s[..|prefix|] == prefix
  }

  // ---------------------------------------------------------------------------
  // list_bpod_events and list_bpod_serial_events
  // ---------------------------------------------------------------------------

  predicate IsUpper(c: char)
  {
    'A' <= c <= 'Z'
  }

  /** `e[0].isupper() and not callable(getattr(Bpod.Events, e))` */
  predicate IsBpodEvent(a: Attribute)
  {
    a.name != [] && IsUpper(a.name[0]) && !a.isCallable
  }

  /** `dir` lists each attribute once. */
  predicate DistinctNames(attrs: seq<Attribute>)
  {
    forall i, j :: 0 <= i < j < |attrs| ==> attrs[i].name != attrs[j].name
  }

  /** The Bpod event names among the attributes, in the order `dir` lists them. */
  function ListBpodEvents(attrs: seq<Attribute>): (r: seq<string>)
    ensures forall e :: e in r <==> exists i :: 0 <= i < |attrs| && attrs[i].name == e && IsBpodEvent(attrs[i])
  {
    if attrs == [] then []
    else
      var front := attrs[..|attrs| - 1];
      assert forall i :: 0 <= i < |front| ==> front[i] == attrs[i];
      ListBpodEvents(front) + (if IsBpodEvent(attrs[|attrs| - 1]) then [attrs[|attrs| - 1].name] else [])
  }

  lemma {:induction false} ListBpodEventsDistinct(attrs: seq<Attribute>)
    requires DistinctNames(attrs)
    ensures Distinct(ListBpodEvents(attrs))
  {
    if attrs != [] {
      var front := attrs[..|attrs| - 1];
      var a := attrs[|attrs| - 1];
      assert forall i :: 0 <= i < |front| ==> front[i] == attrs[i];
      ListBpodEventsDistinct(front);
      assert a.name !in ListBpodEvents(front) by {
        forall i | 0 <= i < |front| ensures front[i].name != a.name {
          assert attrs[i].name != attrs[|attrs| - 1].name;
        }
      }
    }
  }

  /** The events that start with "Serial" and are not blacklisted. */
  function ListBpodSerialEvents(events: seq<string>, blacklist: seq<string>): (r: seq<string>)
    ensures forall e :: e in r <==> e in events && StartsWith(e, SERIAL) && e !in blacklist
    ensures Distinct(events) ==> Distinct(r)
  {
    if events == [] then []
    else
      var front := events[..|events| - 1];
      var e := events[|events| - 1];
      assert events == front + [e];
      ListBpodSerialEvents(front, blacklist)
        + (if StartsWith(e, SERIAL) && e !in blacklist then [e] else [])
  }

  /** Every event of the table, source state by source state. */
  function TransitionEvents(table: Table): (r: seq<string>)
    ensures forall i, k :: 0 <= i < |table| && 0 <= k < |table[i].1| ==> table[i].1[k].1 in r
  {
    if table == [] then []
    else
      var rest := TransitionEvents(table[1..]);
      assert forall i :: 1 <= i < |table| ==> table[i] == table[1..][i - 1];
      Events(table[0].1) + rest
  }

  function Events(tr: Transitions): (r: seq<string>)
    ensures |r| == |tr|
    ensures forall k :: 0 <= k < |tr| ==> r[k] == tr[k].1
  {
    if tr == [] then [] else [tr[0].1] + Events(tr[1..])
  }

  // ---------------------------------------------------------------------------
  // The sort key  int(e.split('_')[0][-1] + e.split('_')[1])
  // ---------------------------------------------------------------------------

  /** The text before the first '_': `s.split('_')[0]`. */
  function Field(s: string): (r: string)
    ensures |r| <= |s| && r == s[..|r|]
    ensures forall i :: 0 <= i < |r| ==> r[i] != '_'
    ensures |r| < |s| ==> s[|r|] == '_'
  {
    if s == [] || s[0] == '_' then [] else [s[0]] + Field(s[1..])
  }

  /** The text after the first '_', or None when there is none (so that
      `s.split('_')[1]` raises IndexError). */
  function AfterField(s: string): (r: Option<string>)
    ensures r.None? <==> '_' !in s
    ensures r.Some? ==> s == Field(s) + "_" + r.value
  {
    if s == [] then None
    else if s[0] == '_' then Some(s[1..])
    else
      var r := AfterField(s[1..]);
      assert r.Some? ==> s == [s[0]] + s[1..];
      r
  }

  predicate IsDigit(c: char)
  {
    '0' <= c <= '9'
  }

  predicate AllDigits(s: string)
  {
    forall i :: 0 <= i < |s| ==> IsDigit(s[i])
  }

  /** `str.isnumeric()` on ASCII text: a non-empty run of digits. */
  predicate IsNumeral(s: string)
  {
    |s| > 0 && AllDigits(s)
  }

  /** The value of a decimal numeral, as `int` and `float` read it. */
  function DigitsValue(s: string): nat
    requires AllDigits(s)
  {
    if s == [] then 0 else DigitsValue(s[..|s| - 1]) * 10 + (s[|s| - 1] as int - '0' as int)
  }

  /** The sort key of a serial event name, or None where Python raises. */
  function SerialKey(e: string): (r: Option<nat>)
    ensures r.Some? ==> '_' in e && Field(e) != []
  {
    var head := Field(e);
    match AfterField(e)
    case None => None
    case Some(rest) =>
      if head == [] then None
      else
        var digits := [head[|head| - 1]] + Field(rest);
        if IsNumeral(digits) then Some(DigitsValue(digits)) else None
  }

  lemma {:induction false} FieldOfSplit(p: string, t: string)
    requires '_' !in p
    ensures Field(p + "_" + t) == p && AfterField(p + "_" + t) == Some(t)
  {
    if p != [] {
      assert (p + "_" + t)[1..] == p[1..] + "_" + t;
      FieldOfSplit(p[1..], t);
    } else {
      assert p + "_" + t == "_" + t;
    }
  }

  lemma {:induction false} FieldWhole(p: string)
    requires '_' !in p
    ensures Field(p) == p
  {
    if p != [] {
      FieldWhole(p[1..]);
    }
  }

  /** The key of "<port><d>_<n>" reads the digit `d` followed by `n` as one
      number: only the last character of the port takes part, so that
      "Serial2_1" (21) sorts before "Serial1_10" (110). */
  lemma SerialKeyOf(port: string, d: char, n: string)
    requires '_' !in port && d != '_' && '_' !in n
    ensures SerialKey(port + [d] + "_" + n) == if IsNumeral([d] + n) then Some(DigitsValue([d] + n)) else None
  {
    FieldOfSplit(port + [d], n);
    FieldWhole(n);
  }

  lemma DigitsOf(s: string, d: char)
    requires AllDigits(s) && IsDigit(d)
    ensures AllDigits(s + [d]) && DigitsValue(s + [d]) == DigitsValue(s) * 10 + (d as int - '0' as int)
  {
    assert (s + [d])[..|s|] == s;
  }

  // ---------------------------------------------------------------------------
  // available_bpod_serial_events.sort(key=...)
  // ---------------------------------------------------------------------------

  /** Every name has a sort key, so that the sort raises nothing. */
  predicate Keyed(s: seq<string>)
  {
    forall i :: 0 <= i < |s| ==> SerialKey(s[i]).Some?
  }

  /** The sort key where there is one. */
  function Rank(e: string): nat
  {
    match SerialKey(e)
    case None => 0
    case Some(k) => k
  }

  predicate SortedByKey(s: seq<string>)
  {
    forall i, j :: 0 <= i < j < |s| ==> Rank(s[i]) <= Rank(s[j])
  }

  /** Inserts `x` before the first element whose key is not smaller. */
  function Insert(x: string, s: seq<string>): (r: seq<string>)
    ensures multiset(r) == multiset{x} + multiset(s)
    ensures forall y :: y in r <==> y == x || y in s
  {
    if s == [] || Rank(x) <= Rank(s[0]) then [x] + s
    else
      assert s == [s[0]] + s[1..];
      [s[0]] + Insert(x, s[1..])
  }

  lemma SortedCons(h: string, t: seq<string>)
    requires SortedByKey(t)
    requires forall y :: y in t ==> Rank(h) <= Rank(y)
    ensures SortedByKey([h] + t)
  {
    var r := [h] + t;
    forall i, j | 0 <= i < j < |r| ensures Rank(r[i]) <= Rank(r[j]) {
      assert r[j] == t[j - 1];
      if i > 0 {
        assert r[i] == t[i - 1];
      } else {
        assert t[j - 1] in t;
      }
    }
  }

  lemma SortedTail(s: seq<string>)
    requires s != [] && SortedByKey(s)
    ensures SortedByKey(s[1..])
    ensures forall y :: y in s[1..] ==> Rank(s[0]) <= Rank(y)
  {
    forall y | y in s[1..] ensures Rank(s[0]) <= Rank(y) {
      var m :| 0 <= m < |s[1..]| && s[1..][m] == y;
      assert s[m + 1] == y;
    }
    forall i | 0 <= i < |s[1..]| ensures s[1..][i] == s[i + 1] {
    }
  }

  lemma {:induction false} InsertSorted(x: string, s: seq<string>)
    requires SortedByKey(s)
    ensures SortedByKey(Insert(x, s))
  {
    if s == [] {
    } else if Rank(x) <= Rank(s[0]) {
      SortedTail(s);
      assert s == [s[0]] + s[1..];
      forall y | y in s ensures Rank(x) <= Rank(y) {
        if y != s[0] {
          assert y in s[1..];
        }
      }
      SortedCons(x, s);
    } else {
      SortedTail(s);
      InsertSorted(x, s[1..]);
      SortedCons(s[0], Insert(x, s[1..]));
    }
  }

  lemma {:induction false} InsertDistinct(x: string, s: seq<string>)
    requires Distinct(s) && x !in s
    ensures Distinct(Insert(x, s))
  {
    if s != [] && Rank(x) > Rank(s[0]) {
      assert s == [s[0]] + s[1..];
      assert s[0] !in s[1..] && x !in s[1..];
      InsertDistinct(x, s[1..]);
      assert s[0] !in Insert(x, s[1..]);
    }
  }

  /** A stable insertion sort on the serial key. */
  function SortByKey(s: seq<string>): (r: seq<string>)
    ensures multiset(r) == multiset(s)
    ensures forall y :: y in r <==> y in s
    ensures SortedByKey(r)
    ensures Distinct(s) ==> Distinct(r)
  {
    if s == [] then []
    else
      assert s == [s[0]] + s[1..];
      var t := SortByKey(s[1..]);
      InsertSorted(s[0], t);
      if Distinct(s) then InsertDistinct(s[0], t); Insert(s[0], t)
      else Insert(s[0], t)
  }

  // ---------------------------------------------------------------------------
  // Parenthesised events: `for c in event.split(): if c.isnumeric(): ...`
  // ---------------------------------------------------------------------------

  /** The ASCII characters `str.split()` treats as whitespace. */
  predicate IsSpace(c: char)
  {
    c == ' ' || 9 <= c as int <= 13 || 28 <= c as int <= 31
  }

  function SkipSpace(s: string): (r: string)
    ensures |r| <= |s| && r == s[|s| - |r|..]
    ensures r != [] ==> !IsSpace(r[0])
  {
    if s != [] && IsSpace(s[0]) then SkipSpace(s[1..]) else s
  }

  function WordAt(s: string): (r: string)
    ensures |r| <= |s| && r == s[..|r|]
    ensures forall i :: 0 <= i < |r| ==> !IsSpace(r[i])
    ensures s != [] && !IsSpace(s[0]) ==> |r| > 0
  {
    if s == [] || IsSpace(s[0]) then [] else [s[0]] + WordAt(s[1..])
  }

  /** A non-empty run of non-whitespace characters. */
  predicate IsWord(w: string)
  {
    w != [] && forall j :: 0 <= j < |w| ==> !IsSpace(w[j])
  }

  /** `s.split()`: the maximal runs of non-whitespace characters. */
  function Words(s: string): (r: seq<string>)
    ensures forall i :: 0 <= i < |r| ==> IsWord(r[i])
    decreases |s|
  {
    var t := SkipSpace(s);
    if t == [] then []
    else
      var w := WordAt(t);
      assert IsWord(w);
      [w] + Words(t[|w|..])
  }

  /** The value of the last numeral among the words, if any: each numeral
      overwrites the timer the loop set before. */
  function LastNumeric(ws: seq<string>): Option<nat>
  {
    if ws == [] then None
    else if IsNumeral(ws[|ws| - 1]) then Some(DigitsValue(ws[|ws| - 1]))
    else LastNumeric(ws[..|ws| - 1])
  }

  /** The finite-sequence fact behind "the last numeral wins". */
  predicate IsLastNumeral(ws: seq<string>, i: int)
  {
    0 <= i < |ws| && IsNumeral(ws[i]) && forall j :: i < j < |ws| ==> !IsNumeral(ws[j])
  }

  lemma {:induction false} LastNumericIsLast(ws: seq<string>)
    ensures LastNumeric(ws).None? <==> forall i :: 0 <= i < |ws| ==> !IsNumeral(ws[i])
    ensures forall i :: IsLastNumeral(ws, i) ==> LastNumeric(ws) == Some(DigitsValue(ws[i]))
  {
    if ws != [] && !IsNumeral(ws[|ws| - 1]) {
      var front := ws[..|ws| - 1];
      LastNumericIsLast(front);
      assert forall i :: 0 <= i < |front| ==> front[i] == ws[i];
      forall i | IsLastNumeral(ws, i) ensures LastNumeric(ws) == Some(DigitsValue(ws[i])) {
        assert IsLastNumeral(front, i);
      }
    }
  }

  /** `event.startswith('(') and event.endswith(')')` */
  predicate IsParenthesised(e: string)
  {
    |e| > 0 && e[0] == '(' && e[|e| - 1] == ')'
  }

  /** The timer a parenthesised event sets, if any of its words is a numeral. */
  function TimerOf(e: string): Option<real>
  {
    match LastNumeric(Words(e))
    case None => None
    case Some(n) => Some(n as real)
  }

  lemma {:induction false} LeadingSpace(s: string)
    requires s != [] && IsSpace(s[0])
    ensures Words(s) == Words(s[1..])
  {
  }

  lemma {:induction false} WordsCons(w: string, rest: string)
    requires w != [] && forall j :: 0 <= j < |w| ==> !IsSpace(w[j])
    requires rest == [] || IsSpace(rest[0])
    ensures Words(w + rest) == [w] + Words(rest)
  {
    WordAtWhole(w, rest);
    assert (w + rest)[|w|..] == rest;
  }

  lemma {:induction false} WordAtWhole(w: string, rest: string)
    requires forall j :: 0 <= j < |w| ==> !IsSpace(w[j])
    requires rest == [] || IsSpace(rest[0])
    ensures WordAt(w + rest) == w
  {
    if w != [] {
      assert (w + rest)[1..] == w[1..] + rest;
      WordAtWhole(w[1..], rest);
    }
  }

  lemma {:induction false} WordsOfWord(w: string)
    requires w != [] && forall j :: 0 <= j < |w| ==> !IsSpace(w[j])
    ensures Words(w) == [w]
  {
    WordsCons(w, "");
    assert w + "" == w;
  }

  /** A parenthesised event without whitespace, such as "(3)", sets no
      timer: its only word starts with '(' and so is not numeric. */
  lemma GluedEventSetsNoTimer(e: string)
    requires IsParenthesised(e)
    requires forall j :: 0 <= j < |e| ==> !IsSpace(e[j])
    ensures TimerOf(e) == None
  {
    WordsOfWord(e);
    assert !IsDigit(e[0]);
    LastNumericIsLast([e]);
  }

  // ---------------------------------------------------------------------------
  // The rewrite of bpodify_state_transition_table
  // ---------------------------------------------------------------------------

  /** An event that is neither a Bpod event nor parenthesised takes a serial event. */
  predicate NeedsSerial(e: string, bpodEvents: seq<string>)
  {
    e !in bpodEvents && !IsParenthesised(e)
  }

  /** How many events of one state's transitions take a serial event. */
  function Need(tr: Transitions, bpodEvents: seq<string>): nat
  {
    if tr == [] then 0 else (if NeedsSerial(tr[0].1, bpodEvents) then 1 else 0) + Need(tr[1..], bpodEvents)
  }

  /** How many events of the whole table take a serial event. */
  function NeedTable(t: Table, bpodEvents: seq<string>): nat
  {
    if t == [] then 0 else Need(t[0].1, bpodEvents) + NeedTable(t[1..], bpodEvents)
  }

  /** Prepends `xs` to the output of a rewrite that has not failed. */
  function Extend<T>(xs: seq<T>, o: Option<(seq<T>, seq<string>)>): Option<(seq<T>, seq<string>)>
  {
    match o
    case None => None
    case Some(p) => Some((xs + p.0, p.1))
  }

  /** One state's transitions rewritten with the pool `pool`: the new
      transitions and what is left of the pool, or None where `pop(0)` meets an
      empty pool. */
  function RewriteTransitions(tr: Transitions, bpodEvents: seq<string>, pool: seq<string>): Option<(BpodTransitions, seq<string>)>
  {
    if tr == [] then Some(([], pool))
    else
      var dest := tr[0].0;
      var e := tr[0].1;
      if e in bpodEvents then Extend([(dest, Named(e))], RewriteTransitions(tr[1..], bpodEvents, pool))
      else if IsParenthesised(e) then
        match TimerOf(e)
        case None => RewriteTransitions(tr[1..], bpodEvents, pool)
        case Some(t) => Extend([(dest, Timer(t))], RewriteTransitions(tr[1..], bpodEvents, pool))
      else if pool == [] then None
      else Extend([(dest, Named(pool[0]))], RewriteTransitions(tr[1..], bpodEvents, pool[1..]))
  }

  /** The whole table rewritten, the pool threaded from state to state. */
  function RewriteTable(t: Table, bpodEvents: seq<string>, pool: seq<string>): Option<(BpodTable, seq<string>)>
  {
    if t == [] then Some(([], pool))
    else
      match RewriteTransitions(t[0].1, bpodEvents, pool)
      case None => None
      case Some(p) => Extend([(t[0].0, p.0)], RewriteTable(t[1..], bpodEvents, p.1))
  }

  /** The serial events not used by the table, before sorting. */
  function Available(attrs: seq<Attribute>, table: Table): seq<string>
  {
    ListBpodSerialEvents(ListBpodEvents(attrs), TransitionEvents(table))
  }

  /** The serial events in the order they are handed out. */
  function SerialPool(attrs: seq<Attribute>, table: Table): seq<string>
  {
    SortByKey(Available(attrs, table))
  }

  /** What `bpodify_state_transition_table` returns or raises for the given
      attributes of `Bpod.Events` and the given parsed table. */
  function BpodifySpec(attrs: seq<Attribute>, table: Table): (r: Result<BpodTable, BpodifyError>)
    ensures r.Success? ==> |r.value| == |table|
    ensures r.Success? ==> forall i :: 0 <= i < |table| ==> r.value[i].0 == table[i].0
  {
    if !Keyed(Available(attrs, table)) then Failure(BadSerialEventName)
    else
      match RewriteTable(table, ListBpodEvents(attrs), SerialPool(attrs, table))
      case None => Failure(NoSerialEventLeft)
      case Some(p) =>
        RewriteTableShape(table, ListBpodEvents(attrs), SerialPool(attrs, table));
        Success(p.0)
  }

  // ---------------------------------------------------------------------------
  // What the rewrite does, entry by entry
  // ---------------------------------------------------------------------------

  function Dests(tr: Transitions): (r: seq<string>)
    ensures |r| == |tr|
    ensures forall k :: 0 <= k < |tr| ==> r[k] == tr[k].0
  {
    if tr == [] then [] else [tr[0].0] + Dests(tr[1..])
  }

  /** A dictionary's keys are distinct. */
  predicate DistinctDests(tr: Transitions)
  {
    forall i, j :: 0 <= i < j < |tr| ==> tr[i].0 != tr[j].0
  }

  /** `new_transition.get(dest)` */
  function Lookup(out: BpodTransitions, dest: string): Option<TransitionEvent>
  {
    if out == [] then None else if out[0].0 == dest then Some(out[0].1) else Lookup(out[1..], dest)
  }

  /** The entry an event gets when `n` serial events have been handed out
      before it: the Bpod event itself, the parsed timer (no entry when there
      is none), or the pool's `n`-th event. */
  function Expected(e: string, bpodEvents: seq<string>, pool: seq<string>, n: nat): Option<TransitionEvent>
  {
    if e in bpodEvents then Some(Named(e))
    else if IsParenthesised(e) then
      match TimerOf(e)
      case None => None
      case Some(t) => Some(Timer(t))
    else if n < |pool| then Some(Named(pool[n]))
    else None
  }

  lemma ExpectedShift(e: string, bpodEvents: seq<string>, pool: seq<string>, m: nat, n: nat, p: nat)
    requires m <= |pool| && p == m + n
    ensures Expected(e, bpodEvents, pool[m..], n) == Expected(e, bpodEvents, pool, p)
  {
  }

  lemma {:induction false} RewriteTransitionsSucceeds(tr: Transitions, bpodEvents: seq<string>, pool: seq<string>)
    ensures RewriteTransitions(tr, bpodEvents, pool).Some? <==> Need(tr, bpodEvents) <= |pool|
    ensures RewriteTransitions(tr, bpodEvents, pool).Some? ==>
              RewriteTransitions(tr, bpodEvents, pool).value.1 == pool[Need(tr, bpodEvents)..]
  {
    if tr != [] {
      var e := tr[0].1;
      if NeedsSerial(e, bpodEvents) {
        if pool != [] {
          RewriteTransitionsSucceeds(tr[1..], bpodEvents, pool[1..]);
          assert Need(tr[1..], bpodEvents) <= |pool[1..]| ==>
                   pool[1..][Need(tr[1..], bpodEvents)..] == pool[1 + Need(tr[1..], bpodEvents)..];
        }
      } else {
        RewriteTransitionsSucceeds(tr[1..], bpodEvents, pool);
      }
    }
  }

  lemma {:induction false} RewriteTableSucceeds(t: Table, bpodEvents: seq<string>, pool: seq<string>)
    ensures RewriteTable(t, bpodEvents, pool).Some? <==> NeedTable(t, bpodEvents) <= |pool|
    ensures RewriteTable(t, bpodEvents, pool).Some? ==>
              RewriteTable(t, bpodEvents, pool).value.1 == pool[NeedTable(t, bpodEvents)..]
  {
    if t != [] {
      var n := Need(t[0].1, bpodEvents);
      RewriteTransitionsSucceeds(t[0].1, bpodEvents, pool);
      if n <= |pool| {
        RewriteTableSucceeds(t[1..], bpodEvents, pool[n..]);
        assert NeedTable(t[1..], bpodEvents) <= |pool[n..]| ==>
                 pool[n..][NeedTable(t[1..], bpodEvents)..] == pool[n + NeedTable(t[1..], bpodEvents)..];
      }
    }
  }

  /** The rewrite of a non-empty list is the entry of its first transition,
      if any, followed by the rewrite of the rest with what is left of the pool. */
  lemma RewriteTransitionsStep(tr: Transitions, bpodEvents: seq<string>, pool: seq<string>)
    requires tr != [] && RewriteTransitions(tr, bpodEvents, pool).Some?
    ensures var h := if NeedsSerial(tr[0].1, bpodEvents) then 1 else 0;
            var head := Expected(tr[0].1, bpodEvents, pool, 0);
            h <= |pool| && RewriteTransitions(tr[1..], bpodEvents, pool[h..]).Some? &&
            RewriteTransitions(tr, bpodEvents, pool).value.0
              == (if head.Some? then [(tr[0].0, head.value)] else []) + RewriteTransitions(tr[1..], bpodEvents, pool[h..]).value.0
  {
  }

  /** The entry the rewrite of one state's transitions gives destination
      `tr[k].0`: what `Expected` says for its event, after the serial events
      handed out to the transitions before it. */
  lemma {:induction false} RewriteTransitionsEntry(tr: Transitions, bpodEvents: seq<string>, pool: seq<string>, k: nat)
    requires DistinctDests(tr)
    requires RewriteTransitions(tr, bpodEvents, pool).Some?
    requires k < |tr|
    ensures Lookup(RewriteTransitions(tr, bpodEvents, pool).value.0, tr[k].0)
              == Expected(tr[k].1, bpodEvents, pool, Need(tr[..k], bpodEvents))
    decreases |tr|, 1
  {
    if k == 0 {
      var d0 := tr[0].0;
      var tail := tr[1..];
      var h := if NeedsSerial(tr[0].1, bpodEvents) then 1 else 0;
      var pool' := pool[h..];
      RewriteTransitionsStep(tr, bpodEvents, pool);
      var out := RewriteTransitions(tr, bpodEvents, pool).value.0;
      var outT := RewriteTransitions(tail, bpodEvents, pool').value.0;
      var head := Expected(tr[0].1, bpodEvents, pool, 0);
      assert tr[..0] == [];
      if head.None? {
        assert d0 !in Dests(tail) by {
          assert forall m :: 0 <= m < |tail| ==> Dests(tail)[m] == tr[m + 1].0;
        }
        RewriteTransitionsKeys(tail, bpodEvents, pool', d0);
        assert out == outT;
      }
    } else {
      RewriteTransitionsEntryLater(tr, bpodEvents, pool, k);
    }
  }

  /** `RewriteTransitionsEntry` for a transition after the first, from the
      same fact about the other transitions and the pool they are given. */
  lemma {:induction false} RewriteTransitionsEntryLater(tr: Transitions, bpodEvents: seq<string>, pool: seq<string>, k: nat)
    requires DistinctDests(tr)
    requires RewriteTransitions(tr, bpodEvents, pool).Some?
    requires 0 < k < |tr|
    ensures Lookup(RewriteTransitions(tr, bpodEvents, pool).value.0, tr[k].0)
              == Expected(tr[k].1, bpodEvents, pool, Need(tr[..k], bpodEvents))
    decreases |tr|, 0
  {
    var tail := tr[1..];
    var h := if NeedsSerial(tr[0].1, bpodEvents) then 1 else 0;
    var pool' := pool[h..];
    RewriteTransitionsStep(tr, bpodEvents, pool);
    var outT := RewriteTransitions(tail, bpodEvents, pool').value.0;
    var head := Expected(tr[0].1, bpodEvents, pool, 0);
    var front := if head.Some? then [(tr[0].0, head.value)] else [];
    assert DistinctDests(tail) by {
      assert forall m :: 0 <= m < |tail| ==> tail[m] == tr[m + 1];
    }
    var n' := Need(tail[..k - 1], bpodEvents);
    assert tr[k] == tail[k - 1] && tr[k].0 != tr[0].0;
    assert Lookup(outT, tr[k].0) == Expected(tr[k].1, bpodEvents, pool', n') by {
      RewriteTransitionsEntry(tail, bpodEvents, pool', k - 1);
    }
    LookupSkip(front, outT, tr[k].0);
    assert Need(tr[..k], bpodEvents) == h + n' by {
      assert tr[..k][0] == tr[0] && tr[..k][1..] == tail[..k - 1];
    }
    ExpectedShift(tr[k].1, bpodEvents, pool, h, n', h + n');
  }

  /** An entry for another destination in front does not change a lookup. */
  lemma LookupSkip(front: BpodTransitions, rest: BpodTransitions, d: string)
    requires |front| <= 1 && (front != [] ==> front[0].0 != d)
    ensures Lookup(front + rest, d) == Lookup(rest, d)
  {
    if front != [] {
      assert (front + rest)[1..] == rest;
    } else {
      assert front + rest == rest;
    }
  }

  /** The rewrite of one state's transitions has entries only for its
      destinations. */
  lemma {:induction false} RewriteTransitionsKeys(tr: Transitions, bpodEvents: seq<string>, pool: seq<string>, d: string)
    requires RewriteTransitions(tr, bpodEvents, pool).Some?
    ensures Lookup(RewriteTransitions(tr, bpodEvents, pool).value.0, d).Some? ==> d in Dests(tr)
  {
    if tr != [] {
      var d0 := tr[0].0;
      var tail := tr[1..];
      var h := if NeedsSerial(tr[0].1, bpodEvents) then 1 else 0;
      var pool' := pool[h..];
      RewriteTransitionsStep(tr, bpodEvents, pool);
      var out := RewriteTransitions(tr, bpodEvents, pool).value.0;
      var outT := RewriteTransitions(tail, bpodEvents, pool').value.0;
      var head := Expected(tr[0].1, bpodEvents, pool, 0);
      assert out == (if head.Some? then [(d0, head.value)] else []) + outT;
      assert Dests(tr) == [d0] + Dests(tail);
      if d != d0 {
        RewriteTransitionsKeys(tail, bpodEvents, pool', d);
        assert Lookup(out, d) == Lookup(outT, d);
      }
    }
  }

  /** How many serial events are handed out before the event at
      (source state `i`, transition `k`). */
  function Position(t: Table, bpodEvents: seq<string>, i: nat, k: nat): nat
    requires i < |t| && k <= |t[i].1|
  {
    NeedTable(t[..i], bpodEvents) + Need(t[i].1[..k], bpodEvents)
  }

  predicate DistinctDestsEverywhere(t: Table)
  {
    forall i :: 0 <= i < |t| ==> DistinctDests(t[i].1)
  }

  /** The table rewrite is the transitions rewrite of each state, each
      starting where the previous states left the pool. */
  lemma {:induction false} RewriteTableShape(t: Table, bpodEvents: seq<string>, pool: seq<string>)
    requires RewriteTable(t, bpodEvents, pool).Some?
    ensures |RewriteTable(t, bpodEvents, pool).value.0| == |t|
    ensures forall i :: 0 <= i < |t| ==>
              var out := RewriteTable(t, bpodEvents, pool).value.0;
              var m := NeedTable(t[..i], bpodEvents);
              out[i].0 == t[i].0 && m <= |pool| &&
              RewriteTransitions(t[i].1, bpodEvents, pool[m..]).Some? &&
              RewriteTransitions(t[i].1, bpodEvents, pool[m..]).value.0 == out[i].1
  {
    RewriteTableLength(t, bpodEvents, pool);
    forall i | 0 <= i < |t|
      ensures var out := RewriteTable(t, bpodEvents, pool).value.0;
              var m := NeedTable(t[..i], bpodEvents);
              out[i].0 == t[i].0 && m <= |pool| &&
              RewriteTransitions(t[i].1, bpodEvents, pool[m..]).Some? &&
              RewriteTransitions(t[i].1, bpodEvents, pool[m..]).value.0 == out[i].1
    {
      RewriteTableAt(t, bpodEvents, pool, i);
    }
  }

  lemma {:induction false} RewriteTableLength(t: Table, bpodEvents: seq<string>, pool: seq<string>)
    requires RewriteTable(t, bpodEvents, pool).Some?
    ensures |RewriteTable(t, bpodEvents, pool).value.0| == |t|
  {
    if t != [] {
      var p := RewriteTransitions(t[0].1, bpodEvents, pool).value;
      RewriteTableLength(t[1..], bpodEvents, p.1);
    }
  }

  /** The rewrite of a non-empty table is the rewrite of its first state
      followed by the rewrite of the rest with what is left of the pool. */
  lemma RewriteTableStep(t: Table, bpodEvents: seq<string>, pool: seq<string>)
    requires t != [] && RewriteTable(t, bpodEvents, pool).Some?
    ensures var n := Need(t[0].1, bpodEvents);
            var first := RewriteTransitions(t[0].1, bpodEvents, pool);
            n <= |pool| && first.Some? && RewriteTable(t[1..], bpodEvents, pool[n..]).Some? &&
            RewriteTable(t, bpodEvents, pool).value.0
              == [(t[0].0, first.value.0)] + RewriteTable(t[1..], bpodEvents, pool[n..]).value.0
  {
    RewriteTransitionsSucceeds(t[0].1, bpodEvents, pool);
  }

  /** One state of `RewriteTableShape`. */
  lemma {:induction false} RewriteTableAt(t: Table, bpodEvents: seq<string>, pool: seq<string>, i: nat)
    requires RewriteTable(t, bpodEvents, pool).Some? && i < |t|
    ensures |RewriteTable(t, bpodEvents, pool).value.0| == |t|
    ensures var out := RewriteTable(t, bpodEvents, pool).value.0;
            var m := NeedTable(t[..i], bpodEvents);
            out[i].0 == t[i].0 && m <= |pool| &&
            RewriteTransitions(t[i].1, bpodEvents, pool[m..]).Some? &&
            RewriteTransitions(t[i].1, bpodEvents, pool[m..]).value.0 == out[i].1
    decreases |t|, 1
  {
    RewriteTableLength(t, bpodEvents, pool);
    if i == 0 {
      RewriteTableStep(t, bpodEvents, pool);
      assert t[..0] == [];
    } else {
      RewriteTableAtLater(t, bpodEvents, pool, i);
    }
  }

  /** `RewriteTableAt` for a state after the first, from the same fact about
      the table without its first state. */
  lemma {:induction false} RewriteTableAtLater(t: Table, bpodEvents: seq<string>, pool: seq<string>, i: nat)
    requires RewriteTable(t, bpodEvents, pool).Some? && 0 < i < |t|
    ensures var out := RewriteTable(t, bpodEvents, pool).value.0;
            var m := NeedTable(t[..i], bpodEvents);
            i < |out| && out[i].0 == t[i].0 && m <= |pool| &&
            RewriteTransitions(t[i].1, bpodEvents, pool[m..]).Some? &&
            RewriteTransitions(t[i].1, bpodEvents, pool[m..]).value.0 == out[i].1
    decreases |t|, 0
  {
    RewriteTableStep(t, bpodEvents, pool);
    var n := Need(t[0].1, bpodEvents);
    var tail := t[1..];
    var pool' := pool[n..];
    var out := RewriteTable(t, bpodEvents, pool).value.0;
    var outT := RewriteTable(tail, bpodEvents, pool').value.0;
    var m' := NeedTable(tail[..i - 1], bpodEvents);
    assert m' <= |pool'| by {
      RewriteTableAt(tail, bpodEvents, pool', i - 1);
    }
    var later := RewriteTransitions(tail[i - 1].1, bpodEvents, pool'[m'..]);
    assert |outT| == |tail| && outT[i - 1].0 == tail[i - 1].0
           && later.Some? && later.value.0 == outT[i - 1].1 by {
      RewriteTableAt(tail, bpodEvents, pool', i - 1);
    }
    assert out[i] == outT[i - 1] && t[i] == tail[i - 1];
    assert NeedTable(t[..i], bpodEvents) == n + m' by {
      assert t[..i][0] == t[0] && t[..i][1..] == tail[..i - 1];
    }
    assert pool'[m'..] == pool[n + m'..];
  }

  lemma {:induction false} NeedAppend(a: Transitions, b: Transitions, bpodEvents: seq<string>)
    ensures Need(a + b, bpodEvents) == Need(a, bpodEvents) + Need(b, bpodEvents)
  {
    if a == [] {
      assert a + b == b;
    } else {
      assert (a + b)[1..] == a[1..] + b;
      NeedAppend(a[1..], b, bpodEvents);
    }
  }

  lemma {:induction false} NeedTableAppend(a: Table, b: Table, bpodEvents: seq<string>)
    ensures NeedTable(a + b, bpodEvents) == NeedTable(a, bpodEvents) + NeedTable(b, bpodEvents)
  {
    if a == [] {
      assert a + b == b;
    } else {
      assert (a + b)[1..] == a[1..] + b;
      NeedTableAppend(a[1..], b, bpodEvents);
    }
  }

  lemma NeedPrefixMonotone(tr: Transitions, bpodEvents: seq<string>, k: nat, k2: nat)
    requires k <= k2 <= |tr|
    ensures Need(tr[..k], bpodEvents) <= Need(tr[..k2], bpodEvents)
  {
    assert tr[..k2] == tr[..k] + tr[k..k2];
    NeedAppend(tr[..k], tr[k..k2], bpodEvents);
  }

  lemma NeedTablePrefixMonotone(t: Table, bpodEvents: seq<string>, i: nat, i2: nat)
    requires i <= i2 <= |t|
    ensures NeedTable(t[..i], bpodEvents) <= NeedTable(t[..i2], bpodEvents)
  {
    assert t[..i2] == t[..i] + t[i..i2];
    NeedTableAppend(t[..i], t[i..i2], bpodEvents);
  }

  /** An event that takes a serial event is counted before its state ends. */
  lemma PositionBelowNextState(t: Table, bpodEvents: seq<string>, i: nat, k: nat)
    requires i < |t| && k < |t[i].1| && NeedsSerial(t[i].1[k].1, bpodEvents)
    ensures Position(t, bpodEvents, i, k) < NeedTable(t[..i + 1], bpodEvents)
    ensures Position(t, bpodEvents, i, k) < Need(t[i].1[..k + 1], bpodEvents) + NeedTable(t[..i], bpodEvents)
  {
    var tr := t[i].1;
    assert tr[..k + 1] == tr[..k] + [tr[k]];
    NeedAppend(tr[..k], [tr[k]], bpodEvents);
    assert [tr[k]][1..] == [];
    NeedPrefixMonotone(tr, bpodEvents, k + 1, |tr|);
    assert tr[..|tr|] == tr;
    assert t[..i + 1] == t[..i] + [t[i]];
    NeedTableAppend(t[..i], [t[i]], bpodEvents);
    assert [t[i]][1..] == [];
  }

  /** Serial events are handed out in the order the loops visit the events. */
  lemma PositionOrder(t: Table, bpodEvents: seq<string>, i: nat, k: nat, i2: nat, k2: nat)
    requires i < |t| && k < |t[i].1| && i2 < |t| && k2 <= |t[i2].1|
    requires i < i2 || (i == i2 && k < k2)
    requires NeedsSerial(t[i].1[k].1, bpodEvents)
    ensures Position(t, bpodEvents, i, k) < Position(t, bpodEvents, i2, k2)
  {
    PositionBelowNextState(t, bpodEvents, i, k);
    if i == i2 {
      NeedPrefixMonotone(t[i].1, bpodEvents, k + 1, k2);
    } else {
      NeedTablePrefixMonotone(t, bpodEvents, i + 1, i2);
    }
  }

  lemma PositionBound(t: Table, bpodEvents: seq<string>, i: nat, k: nat)
    requires i < |t| && k < |t[i].1| && NeedsSerial(t[i].1[k].1, bpodEvents)
    ensures Position(t, bpodEvents, i, k) < NeedTable(t, bpodEvents)
  {
    PositionBelowNextState(t, bpodEvents, i, k);
    NeedTablePrefixMonotone(t, bpodEvents, i + 1, |t|);
    assert t[..|t|] == t;
  }

  // ---------------------------------------------------------------------------
  // Properties of bpodify_state_transition_table
  // ---------------------------------------------------------------------------

  /** It raises exactly when a free serial event has no sort key, or when the
      table needs more serial events than are free. */
  lemma BpodifyFailures(attrs: seq<Attribute>, table: Table)
    ensures BpodifySpec(attrs, table) == Failure(BadSerialEventName) <==> !Keyed(Available(attrs, table))
    ensures BpodifySpec(attrs, table) == Failure(NoSerialEventLeft) <==>
              Keyed(Available(attrs, table)) && |Available(attrs, table)| < NeedTable(table, ListBpodEvents(attrs))
  {
    var pool := SerialPool(attrs, table);
    assert |pool| == |Available(attrs, table)| by {
      assert |multiset(pool)| == |multiset(Available(attrs, table))|;
    }
    RewriteTableSucceeds(table, ListBpodEvents(attrs), pool);
  }

  /** Each state's destinations in the output are among the input's. */
  lemma BpodifyKeepsDestinations(attrs: seq<Attribute>, table: Table, i: nat, d: string)
    requires DistinctDestsEverywhere(table)
    requires BpodifySpec(attrs, table).Success?
    requires i < |table|
    requires Lookup(BpodifySpec(attrs, table).value[i].1, d).Some?
    ensures d in Dests(table[i].1)
  {
    var ev := ListBpodEvents(attrs);
    var pool := SerialPool(attrs, table);
    RewriteTableAt(table, ev, pool, i);
    RewriteTransitionsKeys(table[i].1, ev, pool[NeedTable(table[..i], ev)..], d);
  }

  lemma RewriteTableEntry(t: Table, ev: seq<string>, pool: seq<string>, i: nat, k: nat)
    requires DistinctDestsEverywhere(t)
    requires RewriteTable(t, ev, pool).Some?
    requires i < |t| && k < |t[i].1|
    ensures var out := RewriteTable(t, ev, pool).value.0;
            i < |out| && Lookup(out[i].1, t[i].1[k].0) == Expected(t[i].1[k].1, ev, pool, Position(t, ev, i, k))
  {
    var tr := t[i].1;
    var out := RewriteTable(t, ev, pool).value.0;
    var m := NeedTable(t[..i], ev);
    RewriteTableAt(t, ev, pool, i);
    var n := Need(tr[..k], ev);
    var got := Lookup(out[i].1, tr[k].0);
    assert got == Expected(tr[k].1, ev, pool[m..], n) by {
      RewriteTransitionsEntry(tr, ev, pool[m..], k);
    }
    var p := Position(t, ev, i, k);
    ExpectedShift(tr[k].1, ev, pool, m, n, p);
  }

  /** The entry of destination `table[i].1[k].0` in the output. */
  lemma BpodifyEntry(attrs: seq<Attribute>, table: Table, i: nat, k: nat)
    requires DistinctDestsEverywhere(table)
    requires BpodifySpec(attrs, table).Success?
    requires i < |table| && k < |table[i].1|
    ensures var ev := ListBpodEvents(attrs);
            Lookup(BpodifySpec(attrs, table).value[i].1, table[i].1[k].0)
              == Expected(table[i].1[k].1, ev, SerialPool(attrs, table), Position(table, ev, i, k))
  {
    var ev := ListBpodEvents(attrs);
    var pool := SerialPool(attrs, table);
    assert BpodifySpec(attrs, table).value == RewriteTable(table, ev, pool).value.0;
    RewriteTableEntry(table, ev, pool, i, k);
  }

  /** A Bpod event is copied; a parenthesised event becomes the timer of its
      last numeral, or leaves its destination out; any other event becomes the
      next serial event of the pool. */
  lemma BpodifyRewritesEachEvent(attrs: seq<Attribute>, table: Table, i: nat, k: nat)
    requires DistinctDestsEverywhere(table)
    requires BpodifySpec(attrs, table).Success?
    requires i < |table| && k < |table[i].1|
    ensures var ev := ListBpodEvents(attrs);
            var e := table[i].1[k].1;
            var got := Lookup(BpodifySpec(attrs, table).value[i].1, table[i].1[k].0);
            (e in ev ==> got == Some(Named(e))) &&
            (e !in ev && IsParenthesised(e) ==> (got.Some? <==> TimerOf(e).Some?)) &&
            (e !in ev && IsParenthesised(e) && TimerOf(e).Some? ==> got == Some(Timer(TimerOf(e).value))) &&
            (NeedsSerial(e, ev) ==> Position(table, ev, i, k) < |SerialPool(attrs, table)| &&
                                    got == Some(Named(SerialPool(attrs, table)[Position(table, ev, i, k)])))
  {
    var ev := ListBpodEvents(attrs);
    BpodifyEntry(attrs, table, i, k);
    if NeedsSerial(table[i].1[k].1, ev) {
      PositionBound(table, ev, i, k);
      BpodifyFailures(attrs, table);
      assert |SerialPool(attrs, table)| == |Available(attrs, table)| by {
        assert |multiset(SerialPool(attrs, table))| == |multiset(Available(attrs, table))|;
      }
    }
  }

  /** A replacement is a Bpod serial event that the input table does not use. */
  lemma ReplacementIsFresh(attrs: seq<Attribute>, table: Table, i: nat, k: nat)
    requires DistinctDestsEverywhere(table)
    requires BpodifySpec(attrs, table).Success?
    requires i < |table| && k < |table[i].1| && NeedsSerial(table[i].1[k].1, ListBpodEvents(attrs))
    ensures var p := Position(table, ListBpodEvents(attrs), i, k);
            p < |SerialPool(attrs, table)| &&
            var name := SerialPool(attrs, table)[p];
            StartsWith(name, SERIAL) && name in ListBpodEvents(attrs) &&
            forall i2, k2 :: 0 <= i2 < |table| && 0 <= k2 < |table[i2].1| ==> name != table[i2].1[k2].1
  {
    BpodifyRewritesEachEvent(attrs, table, i, k);
    var p := Position(table, ListBpodEvents(attrs), i, k);
    var name := SerialPool(attrs, table)[p];
    assert name in SerialPool(attrs, table);
    assert name in Available(attrs, table);
  }

  /** Two events that take serial events get different ones, the earlier one
      (in loop order) the one with the smaller or equal key. */
  lemma ReplacementsDistinctAndOrdered(attrs: seq<Attribute>, table: Table, i: nat, k: nat, i2: nat, k2: nat)
    requires DistinctNames(attrs) && DistinctDestsEverywhere(table)
    requires BpodifySpec(attrs, table).Success?
    requires i < |table| && k < |table[i].1| && i2 < |table| && k2 < |table[i2].1|
    requires i < i2 || (i == i2 && k < k2)
    requires NeedsSerial(table[i].1[k].1, ListBpodEvents(attrs))
    requires NeedsSerial(table[i2].1[k2].1, ListBpodEvents(attrs))
    ensures var ev := ListBpodEvents(attrs);
            var p, p2 := Position(table, ev, i, k), Position(table, ev, i2, k2);
            var pool := SerialPool(attrs, table);
            p < p2 < |pool| && pool[p] != pool[p2] &&
            SerialKey(pool[p]).Some? && SerialKey(pool[p2]).Some? &&
            SerialKey(pool[p]).value <= SerialKey(pool[p2]).value
  {
    var ev := ListBpodEvents(attrs);
    var pool := SerialPool(attrs, table);
    var p, p2 := Position(table, ev, i, k), Position(table, ev, i2, k2);
    PositionOrder(table, ev, i, k, i2, k2);
    BpodifyRewritesEachEvent(attrs, table, i2, k2);
    ListBpodEventsDistinct(attrs);
    assert Distinct(pool);
    assert pool[p] in Available(attrs, table) && pool[p2] in Available(attrs, table);
  }

  // ---------------------------------------------------------------------------
  // The loops of bpodify_state_transition_table
  // ---------------------------------------------------------------------------

  lemma ExtendExtend<T>(xs: seq<T>, ys: seq<T>, o: Option<(seq<T>, seq<string>)>)
    ensures Extend(xs, Extend(ys, o)) == Extend(xs + ys, o)
    ensures Extend([], o) == o
  {
    if o.Some? {
      assert xs + (ys + o.value.0) == (xs + ys) + o.value.0;
      assert [] + o.value.0 == o.value.0;
    }
  }

  /** The inner loop over `event.split()`: each numeral overwrites the timer. */
  method ParseTimer(event: string) returns (timer: Option<nat>)
    ensures timer == LastNumeric(Words(event))
  {
    var words := Words(event);
    timer := None;
    var m := 0;
    while m < |words|
      invariant 0 <= m <= |words|
      invariant timer == LastNumeric(words[..m])
    {
      assert words[..m + 1][..m] == words[..m];
      if IsNumeral(words[m]) {
        timer := Some(DigitsValue(words[m]));
      }
      m := m + 1;
    }
    assert words[..|words|] == words;
  }

  /** The loop over one state's transitions, popping serial events off the
      front of `pool`; `ok` is false where `pop(0)` meets an empty pool. */
  method RewriteState(transition: Transitions, bpodEvents: seq<string>, pool: seq<string>)
    returns (ok: bool, newTransition: BpodTransitions, rest: seq<string>)
    ensures ok <==> RewriteTransitions(transition, bpodEvents, pool).Some?
    ensures ok ==> RewriteTransitions(transition, bpodEvents, pool) == Some((newTransition, rest))
  {
    newTransition, rest := [], pool;
    ExtendExtend([], [], RewriteTransitions(transition, bpodEvents, pool));
    assert transition[0..] == transition;
    var k := 0;
    while k < |transition|
      invariant 0 <= k <= |transition|
      invariant RewriteTransitions(transition, bpodEvents, pool)
                  == Extend(newTransition, RewriteTransitions(transition[k..], bpodEvents, rest))
    {
      var dest, event := transition[k].0, transition[k].1;
      assert transition[k..][1..] == transition[k + 1..];
      if event in bpodEvents {
        ExtendExtend(newTransition, [(dest, Named(event))], RewriteTransitions(transition[k + 1..], bpodEvents, rest));
        newTransition := newTransition + [(dest, Named(event))];
      } else if IsParenthesised(event) {
        var timer := ParseTimer(event);
        if timer.Some? {
          ExtendExtend(newTransition, [(dest, Timer(timer.value as real))], RewriteTransitions(transition[k + 1..], bpodEvents, rest));
          newTransition := newTransition + [(dest, Timer(timer.value as real))];
        }
      } else {
        if rest == [] {
          return false, newTransition, rest;
        }
        ExtendExtend(newTransition, [(dest, Named(rest[0]))], RewriteTransitions(transition[k + 1..], bpodEvents, rest[1..]));
        newTransition := newTransition + [(dest, Named(rest[0]))];
        rest := rest[1..];
      }
      k := k + 1;
    }
    assert transition[|transition|..] == [];
    assert newTransition + [] == newTransition;
    ok := true;
  }

  /** The sort computes every key before it reorders anything; the first
      name without one raises. */
  method AllKeyed(available: seq<string>) returns (keyed: bool)
    ensures keyed <==> Keyed(available)
  {
    var n := 0;
    while n < |available|
      invariant 0 <= n <= |available|
      invariant forall m :: 0 <= m < n ==> SerialKey(available[m]).Some?
    {
      if SerialKey(available[n]).None? {
        return false;
      }
      n := n + 1;
    }
    return true;
  }

  /** Fills the new table state by state from the sorted pool. */
  method Bpodify(attrs: seq<Attribute>, table: Table) returns (r: Result<BpodTable, BpodifyError>)
    ensures r == BpodifySpec(attrs, table)
  {
    var bpodEvents := ListBpodEvents(attrs);
    var available := ListBpodSerialEvents(bpodEvents, TransitionEvents(table));
    var keyed := AllKeyed(available);
    if !keyed {
      return Failure(BadSerialEventName);
    }
    var pool := SortByKey(available);
    ghost var pool0 := pool;
    var out: BpodTable := [];
    ExtendExtend([], [], RewriteTable(table, bpodEvents, pool));
    assert table[0..] == table;
    var i := 0;
    while i < |table|
      invariant 0 <= i <= |table|
      invariant RewriteTable(table, bpodEvents, pool0) == Extend(out, RewriteTable(table[i..], bpodEvents, pool))
    {
      assert table[i..][0] == table[i] && table[i..][1..] == table[i + 1..];
      var ok, newTransition, rest := RewriteState(table[i].1, bpodEvents, pool);
      if !ok {
        return Failure(NoSerialEventLeft);
      }
      ExtendExtend(out, [(table[i].0, newTransition)], RewriteTable(table[i + 1..], bpodEvents, rest));
      out := out + [(table[i].0, newTransition)];
      pool := rest;
      i := i + 1;
    }
    assert out + [] == out;
    r := Success(out);
  }
}
