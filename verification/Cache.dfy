/** The data cache of the timing model: ways with ages and a victim search, against the
    textbook definition of least-recently-used replacement by reuse distance. */
module Cache {
  import opened Collections
  import opened Config

  const SETS: nat := 64
  const WAYS: nat := 8
  const LINE_SIZE: nat := 64

  datatype Way = Way(valid: bool, tag: nat, age: nat)

  // The line with this tag in set s.
  function LineOf(tag: nat, s: nat): nat { tag * SETS + s }

  // When a line was last used, counting accesses from 1; 0 if never.
  function LastUse(history: seq<nat>, line: nat): (k: nat)
    ensures k <= |history|
    ensures k > 0 ==> history[k - 1] == line
    ensures k == 0 <==> line !in history
    ensures forall i :: k <= i < |history| ==> history[i] != line
  {
    if history == [] then 0
    else if history[|history| - 1] == line then |history|
    else LastUse(history[..|history| - 1], line)
  }

  // The distinct other lines of the same set in a stretch of accesses.
  function Others(stretch: seq<nat>, line: nat): set<nat> {
    set y | y in stretch && y != line && y % SETS == line % SETS
  }

  /* Textbook LRU: the line was used before, and since then fewer than WAYS distinct other lines
     of its set were. */
  ghost predicate Reused(history: seq<nat>, line: nat) {
    exists i :: 0 <= i < |history| && history[i] == line && |Others(history[i + 1..], line)| < WAYS
  }

  /* The ways of set s after these accesses: the valid ones hold different lines of the set,
     each with the time of its last use for age; and a line used and no longer held has been
     left behind by a full set of lines used since. */
  ghost predicate RowOk(ways: seq<Way>, history: seq<nat>, s: nat) {
    && |ways| == WAYS && s < SETS
    && (forall w :: 0 <= w < WAYS && ways[w].valid ==> 0 < ways[w].age == LastUse(history, LineOf(ways[w].tag, s)))
    && (forall v, w :: 0 <= v < w < WAYS && ways[v].valid && ways[w].valid ==> ways[v].tag != ways[w].tag)
    && (forall tag :: LineOf(tag, s) in history && !Holds(ways, tag) ==>
          forall w :: 0 <= w < WAYS ==> ways[w].valid && ways[w].age > LastUse(history, LineOf(tag, s)))
  }

  ghost predicate Holds(ways: seq<Way>, tag: nat) { exists w :: 0 <= w < |ways| && ways[w].valid && ways[w].tag == tag }

  lemma LastUseNext(history: seq<nat>, line: nat, y: nat)
    ensures LastUse(history + [line], y) == if y == line then |history| + 1 else LastUse(history, y)
  {
    assert (history + [line])[..|history|] == history;
  }

  lemma SameLine(t: nat, u: nat, s: nat)
    ensures LineOf(t, s) == LineOf(u, s) <==> t == u
  {}

  /** The valid ways of a set have distinct ages as well as distinct tags. */
  lemma AgesDiffer(ways: seq<Way>, history: seq<nat>, s: nat, v: nat, w: nat)
    requires RowOk(ways, history, s) && v < w < WAYS && ways[v].valid && ways[w].valid
    ensures ways[v].tag != ways[w].tag && ways[v].age != ways[w].age
  {
    SameLine(ways[v].tag, ways[w].tag, s);
  }

  lemma LineInSet(tag: nat, s: nat)
    requires s < SETS
    ensures LineOf(tag, s) % SETS == s
  {}

  // The line of a set and the tag it has there.
  lemma LineTag(line: nat)
    ensures LineOf(line / SETS, line % SETS) == line
  {}

  /* ----- one access keeps the row in order ----- */

  // An access to another set.
  lemma RowElsewhere(ways: seq<Way>, history: seq<nat>, s: nat, line: nat)
    requires RowOk(ways, history, s) && line % SETS != s
    ensures RowOk(ways, history + [line], s)
  {
    hide LastUse, LineOf;
    forall tag ensures LastUse(history + [line], LineOf(tag, s)) == LastUse(history, LineOf(tag, s))
           && LineOf(tag, s) != line {
      LineInSet(tag, s);
      LastUseNext(history, line, LineOf(tag, s));
    }
  }

  // The line of the set that this access uses now stands in way w, which is free or held it,
  // or has the lowest age of a full set.
  lemma RowAfter(ways: seq<Way>, history: seq<nat>, s: nat, tag: nat, w: nat)
    requires RowOk(ways, history, s) && w < WAYS
    requires if Holds(ways, tag) then ways[w].valid && ways[w].tag == tag
             else !ways[w].valid || forall v :: 0 <= v < WAYS ==> ways[v].valid && ways[w].age <= ways[v].age
    ensures RowOk(ways[w := Way(true, tag, |history| + 1)], history + [LineOf(tag, s)], s)
  {
    var ways', history' := ways[w := Way(true, tag, |history| + 1)], history + [LineOf(tag, s)];
    forall t ensures LastUse(history', LineOf(t, s)) ==
           if t == tag then |history| + 1 else LastUse(history, LineOf(t, s)) {
      LastUseNext(history, LineOf(tag, s), LineOf(t, s));
      SameLine(t, tag, s);
    }
    forall t | LineOf(t, s) in history' && !Holds(ways', t)
      ensures forall v :: 0 <= v < WAYS ==> ways'[v].valid && ways'[v].age > LastUse(history', LineOf(t, s))
    {
      LeftBehind(ways, history, s, tag, w, t);
    }
  }

  lemma LeftBehind(ways: seq<Way>, history: seq<nat>, s: nat, tag: nat, w: nat, t: nat)
    requires RowOk(ways, history, s) && w < WAYS
    requires if Holds(ways, tag) then ways[w].valid && ways[w].tag == tag
             else !ways[w].valid || forall v :: 0 <= v < WAYS ==> ways[v].valid && ways[w].age <= ways[v].age
    requires LineOf(t, s) in history + [LineOf(tag, s)] && !Holds(ways[w := Way(true, tag, |history| + 1)], t)
    ensures t != tag
    ensures forall v :: 0 <= v < WAYS && v != w ==> ways[v].valid && ways[v].age > LastUse(history, LineOf(t, s))
  {
    var ways' := ways[w := Way(true, tag, |history| + 1)];
    assert ways'[w].valid && ways'[w].tag == tag;
    SameLine(t, tag, s);
    if Holds(ways, t) {
      var x :| 0 <= x < WAYS && ways[x].valid && ways[x].tag == t;
      assert ways'[x].tag == (if x == w then tag else t);
      forall v | 0 <= v < WAYS && v != w ensures ways[v].valid && ways[v].age > ways[w].age {
        AgesDiffer(ways, history, s, if v < w then v else w, if v < w then w else v);
      }
    }
  }

  /* ----- a hit is a reuse ----- */

  // The lines of the ways in a set of indices.
  function Lines(ways: seq<Way>, ws: set<nat>, s: nat): set<nat>
    requires forall w :: w in ws ==> w < |ways|
  {
    set w | w in ws :: LineOf(ways[w].tag, s)
  }

  lemma {:induction false} LinesCount(ways: seq<Way>, ws: set<nat>, s: nat)
    requires forall w :: w in ws ==> w < |ways|
    requires forall v, w :: v in ws && w in ws && v != w ==> ways[v].tag != ways[w].tag
    ensures |Lines(ways, ws, s)| == |ws|
    decreases |ws|
  {
    if ws == {} {
      assert Lines(ways, ws, s) == {};
    } else {
      var w :| w in ws;
      LinesCount(ways, ws - {w}, s);
      assert Lines(ways, ws, s) == Lines(ways, ws - {w}, s) + {LineOf(ways[w].tag, s)};
      assert LineOf(ways[w].tag, s) !in Lines(ways, ws - {w}, s) by {
        forall v | v in ws - {w} ensures LineOf(ways[v].tag, s) != LineOf(ways[w].tag, s) {
          SameLine(ways[v].tag, ways[w].tag, s);
        }
      }
    }
  }

  function Indices(): (ws: set<nat>)
    ensures |ws| == WAYS && forall w: nat :: w in ws <==> w < WAYS
  {
    var ws := {0, 1, 2, 3, 4, 5, 6, 7};
    assert |ws| == 8;
    ws
  }

  // The ways that hold a line besides way w.
  function OtherWays(ways: seq<Way>, w: nat): set<nat>
    requires |ways| == WAYS
  {
    set v | v in Indices() && v != w && ways[v].valid
  }

  lemma OthersHeld(ways: seq<Way>, history: seq<nat>, s: nat, w: nat)
    requires RowOk(ways, history, s) && w < WAYS && ways[w].valid
    ensures Others(history[ways[w].age..], LineOf(ways[w].tag, s)) <= Lines(ways, OtherWays(ways, w), s)
  {
    hide LastUse, LineOf;
    var line, k := LineOf(ways[w].tag, s), ways[w].age;
    LineInSet(ways[w].tag, s);
    forall y | y in Others(history[k..], line) ensures y in Lines(ways, OtherWays(ways, w), s) {
      LineTag(y);
      UsedSince(history, k, y);
      HeldSince(ways, history, s, w, y / SETS);
    }
  }

  lemma HeldIsReused(ways: seq<Way>, history: seq<nat>, s: nat, w: nat)
    requires RowOk(ways, history, s) && w < WAYS && ways[w].valid
    ensures Reused(history, LineOf(ways[w].tag, s))
  {
    hide LastUse, LineOf, Others, Indices;
    var line, k, ws := LineOf(ways[w].tag, s), ways[w].age, OtherWays(ways, w);
    OthersHeld(ways, history, s, w);
    forall u, v | u in ws && v in ws && u != v ensures ways[u].tag != ways[v].tag {}
    LinesCount(ways, ws, s);
    SubsetSize(Others(history[k..], line), Lines(ways, ws, s));
    SubsetSize(ws, Indices() - {w});
    assert history[k - 1] == line && history[k - 1 + 1..] == history[k..];
  }

  lemma UsedSince(history: seq<nat>, k: nat, y: nat)
    requires k <= |history| && y in history[k..]
    ensures LastUse(history, y) > k && y in history
  {
    var i :| 0 <= i < |history[k..]| && history[k..][i] == y;
    assert history[k + i] == y;
  }

  // A line used since the held line of way w is held in another way.
  lemma HeldSince(ways: seq<Way>, history: seq<nat>, s: nat, w: nat, tag: nat)
    requires RowOk(ways, history, s) && w < WAYS && ways[w].valid && tag != ways[w].tag
    requires LastUse(history, LineOf(tag, s)) > ways[w].age && LineOf(tag, s) in history
    ensures exists v :: 0 <= v < WAYS && v != w && ways[v].valid && ways[v].tag == tag
  {
    assert ways[w].age > LastUse(history, LineOf(tag, s)) || Holds(ways, tag);
  }

  lemma ReusedIsHeld(ways: seq<Way>, history: seq<nat>, s: nat, tag: nat)
    requires RowOk(ways, history, s) && Reused(history, LineOf(tag, s))
    ensures Holds(ways, tag)
  {
    hide LastUse, LineOf;
    var line := LineOf(tag, s);
    var i :| 0 <= i < |history| && history[i] == line && |Others(history[i + 1..], line)| < WAYS;
    if !Holds(ways, tag) {
      assert LastUse(history, line) > i;
      forall u, v | u in Indices() && v in Indices() && u != v ensures ways[u].tag != ways[v].tag {
        AgesDiffer(ways, history, s, if u < v then u else v, if u < v then v else u);
      }
      LinesCount(ways, Indices(), s);
      forall w | w in Indices() ensures LineOf(ways[w].tag, s) in Others(history[i + 1..], line) {
        InStretch(history, i, LineOf(ways[w].tag, s));
        SameLine(ways[w].tag, tag, s);
        LineInSet(ways[w].tag, s);
        LineInSet(tag, s);
      }
      SubsetSize(Lines(ways, Indices(), s), Others(history[i + 1..], line));
      assert false;
    }
  }

  lemma InStretch(history: seq<nat>, i: nat, y: nat)
    requires i < |history| && LastUse(history, y) > i + 1
    ensures y in history[i + 1..]
  {
    var k := LastUse(history, y);
    assert history[i + 1..][k - 1 - (i + 1)] == y;
  }

  /** Holding a line is having reused it within the reach of the set. */
  lemma HoldsIffReused(ways: seq<Way>, history: seq<nat>, line: nat)
    requires RowOk(ways, history, line % SETS)
    ensures Holds(ways, line / SETS) <==> Reused(history, line)
  {
    LineTag(line);
    if Holds(ways, line / SETS) {
      var w :| 0 <= w < WAYS && ways[w].valid && ways[w].tag == line / SETS;
      HeldIsReused(ways, history, line % SETS, w);
    }
    if Reused(history, line) { ReusedIsHeld(ways, history, line % SETS, line / SETS); }
  }

  /** dcache_model_t */
  class DataCache {
    const tag: array2<nat>
    const age: array2<nat>
    const valid: array2<bool>
    var clk: nat
    ghost var history: seq<nat>   // the lines accessed since the last reset

    ghost predicate Shaped() {
      && tag.Length0 == age.Length0 == valid.Length0 == SETS && tag.Length1 == age.Length1 == valid.Length1 == WAYS
      && tag != age
    }

    ghost function Row(s: nat): (ways: seq<Way>)
      requires Shaped() && s < SETS
      reads tag, age, valid
      ensures |ways| == WAYS
    {
      seq(WAYS, w requires Shaped() && 0 <= w < WAYS && s < SETS reads tag, age,
          valid => Way(valid[s, w], tag[s, w], age[s, w]))
    }

    ghost predicate Valid()
      reads this, tag, age, valid
    {
      && Shaped() && clk == |history| < TWO_32
      && forall s :: 0 <= s < SETS ==> RowOk(Row(s), history, s)
    }

    constructor ()
      ensures Valid() && history == [] && fresh(tag) && fresh(age) && fresh(valid)
    {
      tag := new nat[SETS, WAYS];
      age := new nat[SETS, WAYS];
      valid := new bool[SETS, WAYS]((i, j) => false);
      clk, history := 0, [];
      new;
      assert forall s :: 0 <= s < SETS ==> RowOk(Row(s), history, s);
    }

    /** reset(): every line is forgotten. */
    method Reset()
      requires Shaped()
      modifies this, valid
      ensures Valid() && history == []
    {
      forall i, j | 0 <= i < SETS && 0 <= j < WAYS {
        valid[i, j] := false;
      }
      clk, history := 0, [];
    }

    // The first loop of access(): the way of set s that holds t, if there is one.
    method Find(s: nat, t: nat) returns (hit: bool, w: nat)
      requires Shaped() && s < SETS
      ensures hit == Holds(Row(s), t)
      ensures hit ==> w < WAYS && valid[s, w] && tag[s, w] == t
    {
      w := 0;
      while w < WAYS
        invariant w <= WAYS
        invariant forall v :: 0 <= v < w ==> !(Row(s)[v].valid && Row(s)[v].tag == t)
      {
        if valid[s, w] && tag[s, w] == t {
          assert Row(s)[w].valid;
          return true, w;
        }
        w := w + 1;
      }
      hit := false;
    }

    // The second loop of access(): the first free way of set s, or else one of the lowest age.
    method Victim(s: nat) returns (victim: nat)
      requires Shaped() && s < SETS
      ensures victim < WAYS
      ensures !Row(s)[victim].valid
           || forall v :: 0 <= v < WAYS ==> Row(s)[v].valid && Row(s)[victim].age <= Row(s)[v].age
    {
      victim := 0;
      var w := 0;
      while w < WAYS
        invariant w <= WAYS && victim < WAYS
        invariant forall v :: 0 <= v < w ==> Row(s)[v].valid && Row(s)[victim].age <= Row(s)[v].age
      {
        if !valid[s, w] {
          victim := w;
          break;
        }
        if age[s, w] < age[s, victim] {
          victim := w;
        }
        w := w + 1;
      }
    }

    // A hit: way w of set s is the most recently used.
    method Touch(s: nat, w: nat)
      requires Shaped() && s < SETS && w < WAYS
      modifies age
      ensures Row(s) == old(Row(s))[w := old(Row(s))[w].(age := clk)]
      ensures forall u :: 0 <= u < SETS && u != s ==> Row(u) == old(Row(u))
    {
      age[s, w] := clk;
    }

    // A miss: way w of set s now holds t.
    method Fill(s: nat, w: nat, t: nat)
      requires Shaped() && s < SETS && w < WAYS
      modifies tag, age, valid
      ensures Row(s) == old(Row(s))[w := Way(true, t, clk)]
      ensures forall u :: 0 <= u < SETS && u != s ==> Row(u) == old(Row(u))
    {
      valid[s, w] := true;
      tag[s, w] := t;
      age[s, w] := clk;
    }

    /** access(): a hit exactly if the textbook says so, whatever the accesses since reset. */
    method Access(addr: nat) returns (hit: bool)
      requires Valid() && |history| + 1 < TWO_32
      modifies this, tag, age, valid
      ensures Valid() && history == old(history) + [addr / LINE_SIZE]
      ensures hit <==> Reused(old(history), addr / LINE_SIZE)
    {
      hide RowOk, Reused, Holds;
      var line := addr / LINE_SIZE;
      var s, t := line % SETS, line / SETS;
      HoldsIffReused(Row(s), history, line);
      LineTag(line);
      forall u | 0 <= u < SETS && u != s ensures RowOk(Row(u), history + [line], u) {
        RowElsewhere(Row(u), history, u, line);
      }
      clk := Add32(clk, 1);
      var w: nat;
      hit, w := Find(s, t);
      if hit {
        RowAfter(Row(s), history, s, t, w);
        Touch(s, w);
      } else {
        w := Victim(s);
        RowAfter(Row(s), history, s, t, w);
        Fill(s, w, t);
      }
      history := history + [line];
    }
  }
}
