/** The number scanner of CoreMark's state benchmark, against the languages it recognises. */
module Scanner {
  import opened Config

  datatype State = Start | Invalid | S1 | S2 | Int | Float | Exponent | Scientific

  predicate IsDigit(c: char) { '0' <= c <= '9' }
  predicate IsSign(c: char) { c == '+' || c == '-' }
  predicate IsE(c: char) { c == 'E' || c == 'e' }

  // One round of core_state_transition's switch.
  function Next(st: State, c: char): State {
    match st
    case Start => if IsDigit(c) then Int else if IsSign(c) then S1 else if c == '.' then Float else Invalid
    case S1 => if IsDigit(c) then Int else if c == '.' then Float else Invalid
    case Int => if c == '.' then Float else if !IsDigit(c) then Invalid else Int
    case Float => if IsE(c) then S2 else if !IsDigit(c) then Invalid else Float
    case S2 => if IsSign(c) then Exponent else Invalid
    case Exponent => if IsDigit(c) then Scientific else Invalid
    case Scientific => if !IsDigit(c) then Invalid else Scientific
    case Invalid => Invalid
  }

  // How often the round counts up transition_count[x].
  function Counts(st: State, c: char, x: State): nat {
    match st
    case Start => if x == Start then 1 else if x == Invalid && Next(st, c) == Invalid then 1 else 0
    case Scientific => if x == Invalid && Next(st, c) == Invalid then 1 else 0
    case Int => if x == Int && Next(st, c) != Int then 1 else 0
    case Float => if x == Float && Next(st, c) != Float then 1 else 0
    case Invalid => 0
    case _ => if x == st then 1 else 0
  }

  function Run(s: string): State {
    if s == [] then Start else Next(Run(s[..|s| - 1]), s[|s| - 1])
  }

  /* ----- the languages ----- */

  predicate Digits(s: string) { forall k :: 0 <= k < |s| ==> IsDigit(s[k]) }

  function Unsigned(s: string): string { if s != [] && IsSign(s[0]) then s[1..] else s }

  // [+-]?d+
  predicate IsInt(s: string) { Unsigned(s) != [] && Digits(Unsigned(s)) }

  // [+-]?d*.d*
  predicate IsFloat(s: string) { IsFraction(Unsigned(s)) }

  predicate IsFraction(t: string) { exists k :: 0 <= k < |t| && PointAt(t, k) }

  predicate PointAt(t: string, k: nat)
    requires k < |t|
  {
    t[k] == '.' && Digits(t[..k]) && Digits(t[k + 1..])
  }

  // [+-]?d*.d*[eE][+-]d+
  predicate IsScientific(s: string) {
    exists j :: 0 <= j < |s| - 2 && ExponentAt(s, j)
  }

  predicate ExponentAt(s: string, j: nat)
    requires j < |s| - 2
  {
    IsFloat(s[..j]) && IsE(s[j]) && IsSign(s[j + 1]) && Digits(s[j + 2..])
  }

  predicate IsNumber(s: string) { IsInt(s) || IsFloat(s) || IsScientific(s) }

  // Some numeral starts with s.
  ghost predicate Viable(s: string) { exists u :: IsNumber(s + u) }

  /* What the scanner has seen when it is in this state. */
  ghost predicate Seen(st: State, s: string) {
    match st
    case Start => s == []
    case S1 => |s| == 1 && IsSign(s[0])
    case Int => IsInt(s)
    case Float => IsFloat(s)
    case S2 => |s| >= 1 && IsFloat(s[..|s| - 1]) && IsE(s[|s| - 1])
    case Exponent => |s| >= 2 && IsFloat(s[..|s| - 2]) && IsE(s[|s| - 2]) && IsSign(s[|s| - 1])
    case Scientific => IsScientific(s)
    case Invalid => true
  }

  lemma UnsignedPush(s: string, c: char)
    ensures Unsigned(s + [c]) == if s == [] && IsSign(c) then [] else Unsigned(s) + [c]
  {}

  lemma DigitsPush(s: string, c: char)
    ensures Digits(s + [c]) <==> Digits(s) && IsDigit(c)
  {
    var t := s + [c];
    if Digits(t) { assert forall k :: 0 <= k < |s| ==> t[k] == s[k]; assert t[|s|] == c; }
  }

  lemma IntPush(s: string, c: char)
    ensures IsInt(s + [c]) <==> IsDigit(c) && (s == [] || (|s| == 1 && IsSign(s[0])) || IsInt(s))
  {
    UnsignedPush(s, c);
    DigitsPush(Unsigned(s), c);
  }

  // An optional sign and digits, the digits possibly none.
  predicate Whole(s: string) { Digits(Unsigned(s)) }

  lemma WholeIs(s: string)
    ensures Whole(s) <==> s == [] || (|s| == 1 && IsSign(s[0])) || IsInt(s)
  {}

  lemma PointPush(t: string, c: char, k: nat)
    requires k <= |t|
    ensures PointAt(t + [c], k) <==> if k < |t| then PointAt(t, k) && IsDigit(c) else c == '.' && Digits(t)
  {
    var t' := t + [c];
    if k < |t| {
      assert t'[k + 1..] == t[k + 1..] + [c] && t'[..k] == t[..k];
      DigitsPush(t[k + 1..], c);
    } else {
      assert t'[..k] == t && t'[k + 1..] == [];
    }
  }

  lemma FractionPush(t: string, c: char)
    ensures IsFraction(t + [c]) <==> (c == '.' && Digits(t)) || (IsDigit(c) && IsFraction(t))
  {
    hide PointAt, Digits, IsDigit;
    forall k | 0 <= k <= |t|
      ensures PointAt(t + [c], k) <==> if k < |t| then PointAt(t, k) && IsDigit(c) else c == '.' && Digits(t) {
      PointPush(t, c, k);
    }
    if c == '.' && Digits(t) { assert PointAt(t + [c], |t|); }
    if IsDigit(c) && IsFraction(t) {
      var k :| 0 <= k < |t| && PointAt(t, k);
      assert PointAt(t + [c], k);
    }
  }

  lemma FloatPush(s: string, c: char)
    ensures IsFloat(s + [c]) <==> (c == '.' && Whole(s)) || (IsDigit(c) && IsFloat(s))
  {
    hide PointAt, Digits;
    UnsignedPush(s, c);
    FractionPush(Unsigned(s), c);
  }

  lemma ExponentPush(s: string, c: char, j: nat)
    requires j < |s| - 1
    ensures ExponentAt(s + [c], j) <==> IsDigit(c) && if j < |s| - 2 then ExponentAt(s, j) else Seen(Exponent, s)
  {
    hide IsFloat;
    var s' := s + [c];
    assert s'[..j] == s[..j] && s'[j + 2..] == s[j + 2..] + [c];
    DigitsPush(s[j + 2..], c);
  }

  lemma ScientificPush(s: string, c: char)
    ensures IsScientific(s + [c]) <==> IsDigit(c) && (Seen(Exponent, s) || IsScientific(s))
  {
    hide ExponentAt, IsFloat;
    var s' := s + [c];
    forall j | 0 <= j < |s| - 1
      ensures ExponentAt(s', j) <==> IsDigit(c) && if j < |s| - 2 then ExponentAt(s, j) else Seen(Exponent, s) {
      ExponentPush(s, c, j);
    }
    if IsDigit(c) && Seen(Exponent, s) { assert ExponentAt(s', |s| - 2); }
    if IsDigit(c) && IsScientific(s) {
      var j :| 0 <= j < |s| - 2 && ExponentAt(s, j);
      assert ExponentAt(s', j);
    }
  }

  // What one more character makes of what has been seen.
  lemma SeenPush(s: string, c: char)
    ensures !Seen(Start, s + [c])
    ensures Seen(S1, s + [c]) <==> IsSign(c) && Seen(Start, s)
    ensures Seen(Int, s + [c]) <==> IsDigit(c) && (Seen(Start, s) || Seen(S1, s) || Seen(Int, s))
    ensures Seen(Float, s + [c]) <==> (c == '.' && (Seen(Start, s) || Seen(S1, s) || Seen(Int, s)))
                                      || (IsDigit(c) && Seen(Float, s))
    ensures Seen(S2, s + [c]) <==> IsE(c) && Seen(Float, s)
    ensures Seen(Exponent, s + [c]) <==> IsSign(c) && Seen(S2, s)
    ensures Seen(Scientific, s + [c]) <==> IsDigit(c) && (Seen(Exponent, s) || Seen(Scientific, s))
  {
    hide IsInt, IsFloat, IsScientific, IsDigit, IsSign, IsE;
    var s' := s + [c];
    assert s'[..|s'| - 1] == s;
    if s != [] { assert s'[..|s'| - 2] == s[..|s| - 1]; }
    IntPush(s, c);
    WholeIs(s);
    FloatPush(s, c);
    ScientificPush(s, c);
  }

  lemma RunOne(s: string, c: char)
    ensures Run(s + [c]) == Next(Run(s), c)
  {
    assert (s + [c])[..|s|] == s;
  }

  // The states from which a character leads into each state.
  lemma NextInto(r: State, c: char)
    ensures Next(r, c) != Start
    ensures Next(r, c) == S1 <==> IsSign(c) && r == Start
    ensures Next(r, c) == Int <==> IsDigit(c) && (r == Start || r == S1 || r == Int)
    ensures Next(r, c) == Float <==> (c == '.' && (r == Start || r == S1 || r == Int)) || (IsDigit(c) && r == Float)
    ensures Next(r, c) == S2 <==> IsE(c) && r == Float
    ensures Next(r, c) == Exponent <==> IsSign(c) && r == S2
    ensures Next(r, c) == Scientific <==> IsDigit(c) && (r == Exponent || r == Scientific)
  {}

  /** In a state other than Invalid the scanner has read exactly what the state stands for. */
  lemma {:induction false} RunMeans(s: string, st: State)
    requires st != Invalid
    ensures Run(s) == st <==> Seen(st, s)
  {
    if s == [] {
      Empty();
    } else {
      var pre, c := s[..|s| - 1], s[|s| - 1];
      assert s == pre + [c];
      hide Seen, IsDigit, IsSign, IsE, Run, Next;
      RunOne(pre, c);
      NextInto(Run(pre), c);
      SeenPush(pre, c);
      forall x: State | x != Invalid ensures Run(pre) == x <==> Seen(x, pre) { RunMeans(pre, x); }
    }
  }

  lemma Empty()
    ensures !IsInt([]) && !IsFloat([]) && !IsScientific([])
  {}

  /** A finished token is of the kind that is reported, exactly. */
  lemma Recognises(s: string)
    ensures Run(s) == Int <==> IsInt(s)
    ensures Run(s) == Float <==> IsFloat(s)
    ensures Run(s) == Scientific <==> IsScientific(s)
    ensures Run(s) == Start <==> s == []
  {
    hide IsInt, IsFloat, IsScientific;
    RunMeans(s, Int);
    RunMeans(s, Float);
    RunMeans(s, Scientific);
    RunMeans(s, Start);
  }

  lemma {:induction false} InvalidStays(s: string, u: string)
    requires Run(s) == Invalid
    ensures Run(s + u) == Invalid
    decreases |u|
  {
    if u == [] {
      assert s + u == s;
    } else {
      InvalidStays(s, u[..|u| - 1]);
      assert (s + u)[..|s + u| - 1] == s + u[..|u| - 1];
    }
  }

  // The rest of some numeral, from each state.
  function Completion(st: State): string {
    match st
    case Start => "0"
    case S1 => "0"
    case S2 => "+0"
    case Exponent => "0"
    case _ => ""
  }

  lemma Completes(s: string)
    requires Run(s) != Invalid
    ensures IsNumber(s + Completion(Run(s)))
  {
    var u := Completion(Run(s));
    RunOne(s, '0');
    RunOne(s, '+');
    RunOne(s + ['+'], '0');
    assert s + "" == s && s + "0" == s + ['0'] && s + "+0" == s + ['+'] + ['0'];
    hide Run;
    Recognises(s + u);
  }

  /** A prefix is rejected exactly if no numeral starts with it. */
  lemma InvalidIffNotViable(s: string)
    ensures Run(s) != Invalid <==> Viable(s)
  {
    hide IsInt, IsFloat, IsScientific, Run;
    if Run(s) != Invalid { Completes(s); }
    if Viable(s) {
      var u :| IsNumber(s + u);
      Recognises(s + u);
      if Run(s) == Invalid { InvalidStays(s, u); }
    }
  }

  /* ----- core_state_transition ----- */

  // Scanning on from place k of a NUL-terminated text: the state returned, and how far the
  // pointer has moved.
  function Scan(s: string, k: nat): (r: (State, nat))
    requires k <= |s|
    ensures k <= r.1 <= |s|
    decreases |s| - k
  {
    if k == |s| || Run(s[..k]) == Invalid then (Run(s[..k]), k)
    else if s[k] == ',' then (Run(s[..k]), k + 1)
    else Scan(s, k + 1)
  }

  // Where the token at the head of the text ends: at the first comma, or at the end.
  function TokenEnd(s: string, k: nat): (e: nat)
    requires k <= |s|
    ensures k <= e <= |s| && (e < |s| ==> s[e] == ',') && forall j :: k <= j < e ==> s[j] != ','
    decreases |s| - k
  {
    if k == |s| || s[k] == ',' then k else TokenEnd(s, k + 1)
  }

  // What a scan from the head of the text comes to, given that it has reached place k.
  lemma {:induction false} ScanMeans(s: string, k: nat)
    requires k <= TokenEnd(s, 0) && forall j :: 0 <= j < k ==> Run(s[..j]) != Invalid
    ensures var ((st, n), e) := (Scan(s, k), TokenEnd(s, 0));
            if st == Invalid then 0 < n <= e && Run(s[..n]) == Invalid
                                  && forall j :: 0 <= j < n ==> Run(s[..j]) != Invalid
            else st == Run(s[..e]) && n == if e < |s| then e + 1 else e
    decreases |s| - k
  {
    if k < |s| && Run(s[..k]) != Invalid && s[k] != ',' { ScanMeans(s, k + 1); }
  }

  /** One call of core_state_transition on a text, up to its NUL: INT, FLOAT or SCIENTIFIC is
      returned exactly if the text up to the next comma or NUL is in that language; INVALID
      exactly at the first byte that no numeral can contain there; START exactly for an empty
      token; and the pointer moves past the token and its comma, or just past the bad byte. */
  lemma TransitionMeans(s: string)
    ensures var ((st, n), token) := (Scan(s, 0), s[..TokenEnd(s, 0)]);
            && (st == Int <==> IsInt(token)) && (st == Float <==> IsFloat(token))
            && (st == Scientific <==> IsScientific(token))
            && (st == Start <==> token == [])
            && (st == Invalid <==> !Viable(token))
            && (st == Invalid ==> 0 < n <= |token| && !Viable(s[..n]) && forall j :: 0 <= j < n ==> Viable(s[..j]))
            && (st != Invalid ==> n == |token| + if |token| < |s| then 1 else 0)
  {
    hide IsInt, IsFloat, IsScientific, Run, Viable, Scan;
    var (st, n) := Scan(s, 0);
    var token := s[..TokenEnd(s, 0)];
    ScanMeans(s, 0);
    Recognises(token);
    InvalidIffNotViable(token);
    if st == Invalid {
      InvalidIffNotViable(s[..n]);
      forall j | 0 <= j < n ensures Viable(s[..j]) { InvalidIffNotViable(s[..j]); }
      assert token == s[..n] + token[n..];
      InvalidStays(s[..n], token[n..]);
    }
  }

  /** Each call from a byte other than NUL consumes at least one byte, and never passes the NUL. */
  lemma Progress(s: string)
    requires s != []
    ensures 0 < Scan(s, 0).1 <= |s|
  {
    ScanMeans(s, 0);
    assert Run(s[..0]) == Start;
  }

  // What the first n rounds of a call add to transition_count[x].
  function Counted(s: string, n: nat, x: State): nat
    requires n <= |s|
  {
    if n == 0 then 0 else Counted(s, n - 1, x) + if s[n - 1] == ',' then 0 else Counts(Run(s[..n - 1]), s[n - 1], x)
  }

  // The place of a state in the count arrays: its number in the enumeration.
  function Index(st: State): (k: nat)
    ensures k < 8
  {
    match st
    case Start => 0
    case Invalid => 1
    case S1 => 2
    case S2 => 3
    case Int => 4
    case Float => 5
    case Exponent => 6
    case Scientific => 7
  }

  lemma IndexApart(st: State, x: State)
    ensures Index(st) == Index(x) <==> st == x
  {}

  ghost predicate IsCounts(counts: array<nat>)
    reads counts
  {
    counts.Length == 8 && forall k :: 0 <= k < 8 ==> counts[k] < TWO_32
  }

  // transition_count[x]++
  method Bump(counts: array<nat>, st: State)
    requires IsCounts(counts)
    modifies counts
    ensures IsCounts(counts)
    ensures forall x :: counts[Index(x)] == (old(counts[Index(x)]) + if x == st then 1 else 0) % TWO_32
  {
    forall x ensures Index(st) == Index(x) <==> st == x { IndexApart(st, x); }
    counts[Index(st)] := (counts[Index(st)] + 1) % TWO_32;
  }

  // The switch of core_state_transition.
  method Switch(counts: array<nat>, st: State, c: char) returns (state: State)
    requires IsCounts(counts)
    modifies counts
    ensures IsCounts(counts) && state == Next(st, c)
    ensures forall x :: counts[Index(x)] == (old(counts[Index(x)]) + Counts(st, c, x)) % TWO_32
  {
    state := st;
    match st
    case Start =>
      if IsDigit(c) {
        state := Int;
      } else if IsSign(c) {
        state := S1;
      } else if c == '.' {
        state := Float;
      } else {
        state := Invalid;
        Bump(counts, Invalid);
      }
      Bump(counts, Start);
    case S1 =>
      state := if IsDigit(c) then Int else if c == '.' then Float else Invalid;
      Bump(counts, S1);
    case Int =>
      if c == '.' {
        state := Float;
        Bump(counts, Int);
      } else if !IsDigit(c) {
        state := Invalid;
        Bump(counts, Int);
      }
    case Float =>
      if IsE(c) {
        state := S2;
        Bump(counts, Float);
      } else if !IsDigit(c) {
        state := Invalid;
        Bump(counts, Float);
      }
    case S2 =>
      state := if IsSign(c) then Exponent else Invalid;
      Bump(counts, S2);
    case Exponent =>
      state := if IsDigit(c) then Scientific else Invalid;
      Bump(counts, Exponent);
    case Scientific =>
      if !IsDigit(c) {
        state := Invalid;
        Bump(counts, Invalid);
      }
    case Invalid =>
  }

  lemma ScanStep(s: string, k: nat)
    requires k <= |s|
    ensures Scan(s, k) == if k == |s| || Run(s[..k]) == Invalid then (Run(s[..k]), k)
                          else if s[k] == ',' then (Run(s[..k]), k + 1) else Scan(s, k + 1)
  {
    hide Run;
  }

  lemma CountedStep(s: string, n: nat, x: State)
    requires n < |s|
    ensures Counted(s, n + 1, x) == Counted(s, n, x) + if s[n] == ',' then 0 else Counts(Run(s[..n]), s[n], x)
  {
    hide Run, Counts;
  }

  /* The counts have gained what the first n rounds add. */
  ghost predicate Gained(counts: seq<nat>, base: seq<nat>, s: string, n: nat)
    requires n <= |s|
  {
    |counts| == |base| == 8 && forall x :: counts[Index(x)] == (base[Index(x)] + Counted(s, n, x)) % TWO_32
  }

  lemma GainedNone(counts: seq<nat>, s: string)
    requires |counts| == 8 && forall k :: 0 <= k < 8 ==> counts[k] < TWO_32
    ensures Gained(counts, counts, s, 0)
  {}

  lemma GainedMore(counts: seq<nat>, counts': seq<nat>, base: seq<nat>, s: string, n: nat)
    requires n < |s| && Gained(counts, base, s, n) && |counts'| == 8
    requires forall x :: counts'[Index(x)] == (counts[Index(x)] + if s[n] == ',' then 0
                                               else Counts(Run(s[..n]), s[n], x)) % TWO_32
    ensures Gained(counts', base, s, n + 1)
  {
    hide Run, Counts, Index, Counted;
    forall x ensures Counted(s, n + 1, x) == Counted(s, n, x) + if s[n] == ',' then 0
           else Counts(Run(s[..n]), s[n], x)
    {
      CountedStep(s, n, x);
    }
  }

  lemma GainedComma(counts: seq<nat>, base: seq<nat>, s: string, n: nat)
    requires n < |s| && s[n] == ',' && Gained(counts, base, s, n)
    ensures Gained(counts, base, s, n + 1)
  {
    hide Run, Counts, Index, Counted;
    forall x ensures Counted(s, n + 1, x) == Counted(s, n, x) { CountedStep(s, n, x); }
  }

  // One round of core_state_transition's loop on a character that is not a comma.
  method OneRound(counts: array<nat>, state: State, c: char, ghost base: seq<nat>, ghost s: string, ghost n: nat)
    returns (state': State)
    requires IsCounts(counts) && n < |s| && c == s[n] != ',' && state == Run(s[..n]) && Gained(counts[..], base, s, n)
    modifies counts
    ensures IsCounts(counts) && state' == Run(s[..n + 1]) && Gained(counts[..], base, s, n + 1)
  {
    hide Counts, Next, Index, Counted, Gained;
    ghost var was := counts[..];
    RunOne(s[..n], c);
    assert s[..n] + [c] == s[..n + 1];
    state' := Switch(counts, state, c);
    GainedMore(was, counts[..], base, s, n);
  }

  /** core_state_transition on a buffer with a NUL at z: what Scan says of the text up to it. */
  method Transition(buf: array<char>, p: nat, counts: array<nat>, ghost z: nat) returns (state: State, p': nat)
    requires p <= z < buf.Length && buf[z] == '\0' && (forall k :: p <= k < z ==> buf[k] != '\0') && IsCounts(counts)
    modifies counts
    ensures IsCounts(counts) && p <= p' <= z && (state, p' - p) == Scan(buf[p..z], 0)
    ensures Gained(counts[..], old(counts[..]), buf[p..z], p' - p)
  {
    ghost var s, base := buf[p..z], counts[..];
    assert Run(s[..0]) == Start;
    GainedNone(base, s);
    hide Counts, Index, Scan, Counted, Run, Gained;
    state, p' := Start, p;
    while buf[p'] != '\0' && state != Invalid
      invariant p <= p' <= z && IsCounts(counts) && Gained(counts[..], base, s, p' - p)
      invariant state == Run(s[..p' - p]) && Scan(s, 0) == Scan(s, p' - p)
      decreases z - p'
    {
      var nextSymbol := buf[p'];
      ghost var n := p' - p;
      ScanStep(s, n);
      if nextSymbol == ',' {
        GainedComma(counts[..], base, s, n);
        p' := p' + 1;
        return;
      }
      state := OneRound(counts, state, nextSymbol, base, s, n);
      p' := p' + 1;
    }
    ScanStep(s, p' - p);
  }

  /* ----- the token loop of core_bench_state ----- */

  // The slices that successive calls consume, with the states they return.
  function Tokens(s: string): (ts: seq<(State, string)>)
    decreases |s|
  {
    if s == [] then []
    else
      Progress(s);
      var (st, n) := Scan(s, 0);
      [(st, s[..n])] + Tokens(s[n..])
  }

  function Joined(ts: seq<(State, string)>): string {
    if ts == [] then [] else ts[0].1 + Joined(ts[1..])
  }

  // How many tokens ended in state x.
  function Finals(ts: seq<(State, string)>, x: State): nat {
    if ts == [] then 0 else Finals(ts[..|ts| - 1], x) + if ts[|ts| - 1].0 == x then 1 else 0
  }

  /** The slices partition the text, and none is empty. */
  lemma {:induction false} TokensPartition(s: string)
    ensures Joined(Tokens(s)) == s && forall i :: 0 <= i < |Tokens(s)| ==> Tokens(s)[i].1 != []
    decreases |s|
  {
    if s != [] {
      Progress(s);
      var (st, n) := Scan(s, 0);
      TokensPartition(s[n..]);
      assert Tokens(s)[1..] == Tokens(s[n..]);
      assert s == s[..n] + s[n..];
      forall i | 0 <= i < |Tokens(s)| ensures Tokens(s)[i].1 != [] {
        if i > 0 { assert Tokens(s)[i] == Tokens(s[n..])[i - 1]; }
      }
    }
  }

  lemma FinalsPush(ts: seq<(State, string)>, t: (State, string), x: State)
    ensures Finals(ts + [t], x) == Finals(ts, x) + if t.0 == x then 1 else 0
  {
    assert (ts + [t])[..|ts|] == ts;
  }

  lemma TokensFrom(s: string)
    ensures if s == [] then Tokens(s) == [] else var (st, n) := Scan(s, 0);
            0 < n <= |s| && Tokens(s) == [(st, s[..n])] + Tokens(s[n..])
  {
    if s != [] { Progress(s); }
  }

  lemma Associates<T>(a: seq<T>, t: T, b: seq<T>)
    ensures a + ([t] + b) == (a + [t]) + b
  {}

  /* The counts have gained the tokens in ts. */
  ghost predicate Tallied(counts: seq<nat>, base: seq<nat>, ts: seq<(State, string)>) {
    |counts| == |base| == 8 && forall x :: counts[Index(x)] == (base[Index(x)] + Finals(ts, x)) % TWO_32
  }

  lemma TalliedPush(counts: seq<nat>, counts': seq<nat>, base: seq<nat>, ts: seq<(State, string)>, t: (State, string))
    requires Tallied(counts, base, ts) && |counts'| == 8
    requires forall x :: counts'[Index(x)] == (counts[Index(x)] + if x == t.0 then 1 else 0) % TWO_32
    ensures Tallied(counts', base, ts + [t])
  {
    hide Finals, Index;
    forall x ensures Finals(ts + [t], x) == Finals(ts, x) + if x == t.0 then 1 else 0 { FinalsPush(ts, t, x); }
  }

  lemma TalliedNone(counts: seq<nat>)
    requires |counts| == 8 && forall k :: 0 <= k < 8 ==> counts[k] < TWO_32
    ensures Tallied(counts, counts, [])
  {}

  /** The loop over a NUL-terminated buffer: it terminates, and final_counts gains the number of
      tokens of each kind. */
  method CountTokens(buf: array<char>, finals: array<nat>, track: array<nat>, ghost z: nat)
    requires z < buf.Length && buf[z] == '\0' && (forall k :: 0 <= k < z ==> buf[k] != '\0')
    requires IsCounts(finals) && IsCounts(track) && finals != track
    modifies finals, track
    ensures IsCounts(finals) && IsCounts(track)
    ensures forall x :: finals[Index(x)] == (old(finals[Index(x)]) + Finals(Tokens(buf[..z]), x)) % TWO_32
  {
    hide Scan, Counted, Index, Finals, Tokens;
    var p: nat := 0;
    ghost var ts: seq<(State, string)> := [];
    ghost var base := finals[..];
    assert buf[..z] == buf[0..z];
    TalliedNone(base);
    {
      hide Tallied;
      while buf[p] != '\0'
        invariant p <= z && IsCounts(track) && IsCounts(finals)
        invariant Tokens(buf[..z]) == ts + Tokens(buf[p..z])
        invariant Tallied(finals[..], base, ts)
        decreases z - p
      {
        ghost var was := finals[..];
        var state, p' := Transition(buf, p, track, z);
        assert finals[..] == was;
        ghost var s := buf[p..z];
        ghost var t := (state, s[..p' - p]);
        assert buf[p'..z] == s[p' - p..];
        TokensFrom(s);
        Associates(ts, t, Tokens(buf[p'..z]));
        Bump(finals, state);
        TalliedPush(was, finals[..], base, ts, t);
        ts := ts + [t];
        p := p';
      }
      assert p == z && ts + [] == ts;
      TokensFrom(buf[z..z]);
    }
  }
}
