/** The Tower of Hanoi solver `torre_hanoi(n, origem, destino, auxiliar)`:
    the ordered list of moves that carries `n` discs from `origem` to `destino`. */
module Hanoi {
  import opened Wrappers
  import Decimal
  import Text

  /** A peg is whatever the caller passed; only its `str()` reaches the output. */
  type Peg = string

  /** One move: disc `disco` goes from peg `origem` to peg `destino`. */
  datatype Move = Move(disco: nat, origem: Peg, destino: Peg)

  function Pow2(n: nat): (p: nat)
    ensures p >= 1
  {
    if n == 0 then 1 else 2 * Pow2(n - 1)
  }

  /** The move sequence: the `n - 1` smaller discs go to the auxiliary peg, disc `n`
      moves, then the smaller discs go on top of it. The source recurses forever
      when `n <= 0`, so only `n >= 1` is in the domain. */
  function TorreHanoi(n: nat, origem: Peg, destino: Peg, auxiliar: Peg): (moves: seq<Move>)
    requires n >= 1
    ensures |moves| == Pow2(n) - 1
  {
    if n == 1 then [Move(1, origem, destino)]
    else TorreHanoi(n - 1, origem, auxiliar, destino)
         + [Move(n, origem, destino)]
         + TorreHanoi(n - 1, auxiliar, destino, origem)
  }

  /** With one disc the answer is that disc's single move. */
  lemma SingleDisc(origem: Peg, destino: Peg, auxiliar: Peg)
    ensures TorreHanoi(1, origem, destino, auxiliar) == [Move(1, origem, destino)]
  {
  }

  /** Every move carries a disc between 1 and `n`, between two of the three pegs,
      and never from a peg to itself when the pegs are distinct. */
  lemma {:induction false} MovesInRange(n: nat, origem: Peg, destino: Peg, auxiliar: Peg)
    requires n >= 1
    ensures forall m | m in TorreHanoi(n, origem, destino, auxiliar) ::
      && 1 <= m.disco <= n
      && m.origem in {origem, destino, auxiliar}
      && m.destino in {origem, destino, auxiliar}
      && (origem != destino && destino != auxiliar && auxiliar != origem ==> m.origem != m.destino)
  {
    if n > 1 {
      MovesInRange(n - 1, origem, auxiliar, destino);
      MovesInRange(n - 1, auxiliar, destino, origem);
    }
  }

  /** Disc `n` moves exactly once, straight from `origem` to `destino`, at index `2^(n-1) - 1`. */
  lemma {:induction false} LargestDiscMovesOnceInMiddle(n: nat, origem: Peg, destino: Peg, auxiliar: Peg)
    requires n >= 1
    ensures var moves := TorreHanoi(n, origem, destino, auxiliar);
      && moves[Pow2(n - 1) - 1] == Move(n, origem, destino)
      && forall i | 0 <= i < |moves| && i != Pow2(n - 1) - 1 :: moves[i].disco < n
  {
    if n > 1 {
      var before := TorreHanoi(n - 1, origem, auxiliar, destino);
      var after := TorreHanoi(n - 1, auxiliar, destino, origem);
      MovesInRange(n - 1, origem, auxiliar, destino);
      MovesInRange(n - 1, auxiliar, destino, origem);
      var moves := TorreHanoi(n, origem, destino, auxiliar);
      assert moves == before + [Move(n, origem, destino)] + after;
      forall i | 0 <= i < |moves| && i != Pow2(n - 1) - 1
        ensures moves[i].disco < n
      {
        if i < |before| {
          assert moves[i] in before;
        } else {
          assert moves[i] == after[i - |before| - 1];
          assert moves[i] in after;
        }
      }
    }
  }

  /** The exact seven moves for three discs from A to C via B. */
  lemma ThreeDiscs()
    ensures TorreHanoi(3, "A", "C", "B") == [
      Move(1, "A", "C"), Move(2, "A", "B"), Move(1, "C", "B"), Move(3, "A", "C"),
      Move(1, "B", "A"), Move(2, "B", "C"), Move(1, "A", "C")]
  {
  }

  /** The exact seven lines for three discs from A to C via B. */
  lemma ThreeDiscsText()
    ensures DescribeAll(TorreHanoi(3, "A", "C", "B")) == [
      "Move o disco 1 de A para C",
      "Move o disco 2 de A para B",
      "Move o disco 1 de C para B",
      "Move o disco 3 de A para C",
      "Move o disco 1 de B para A",
      "Move o disco 2 de B para C",
      "Move o disco 1 de A para C"]
  {
    ThreeDiscs();
    LinesFromA();
    LinesFromBAndC();
  }

  lemma LinesFromA()
    ensures Describe(Move(1, "A", "C")) == "Move o disco 1 de A para C"
    ensures Describe(Move(2, "A", "B")) == "Move o disco 2 de A para B"
    ensures Describe(Move(3, "A", "C")) == "Move o disco 3 de A para C"
  {
    assert Decimal.Show(1) == "1" && Decimal.Show(2) == "2" && Decimal.Show(3) == "3";
  }

  lemma LinesFromBAndC()
    ensures Describe(Move(1, "C", "B")) == "Move o disco 1 de C para B"
    ensures Describe(Move(1, "B", "A")) == "Move o disco 1 de B para A"
    ensures Describe(Move(2, "B", "C")) == "Move o disco 2 de B para C"
  {
    assert Decimal.Show(1) == "1" && Decimal.Show(2) == "2";
  }

  // ---------------------------------------------------------------------------
  // Replaying the moves: what "solves the puzzle" means

  /** The discs on each peg, bottom first, so the top disc is the last element. */
  type Pegs = map<Peg, seq<nat>>

  /** Discs `n, n - 1, ..., 1` from the bottom up. */
  function Tower(n: nat): (t: seq<nat>)
    ensures |t| == n
    ensures forall i | 0 <= i < n :: t[i] == n - i
  {
    if n == 0 then [] else [n] + Tower(n - 1)
  }

  /** Every disc in `stack` is larger than `n`. */
  predicate Above(stack: seq<nat>, n: nat) {
    forall i | 0 <= i < |stack| :: stack[i] > n
  }

  /** A legal move takes the top disc of its origin peg, which must be the named disc,
      and puts it on an empty peg or on a larger disc. */
  function Apply(pegs: Pegs, m: Move): (r: Option<Pegs>)
    ensures r.Some? <==>
      && m.origem in pegs && m.destino in pegs
      && |pegs[m.origem]| > 0 && pegs[m.origem][|pegs[m.origem]| - 1] == m.disco
      && (|pegs[m.destino]| == 0 || pegs[m.destino][|pegs[m.destino]| - 1] > m.disco)
  {
    if m.origem !in pegs || m.destino !in pegs then None
    else
      var from, to := pegs[m.origem], pegs[m.destino];
      if |from| == 0 || from[|from| - 1] != m.disco then None
      else if |to| > 0 && to[|to| - 1] <= m.disco then None
      else Some(pegs[m.origem := from[..|from| - 1]][m.destino := to + [m.disco]])
  }

  /** Plays the moves in order; `None` as soon as one is illegal. */
  function Replay(pegs: Pegs, moves: seq<Move>): Option<Pegs>
    decreases |moves|
  {
    if moves == [] then Some(pegs)
    else
      match Apply(pegs, moves[0])
      case None => None
      case Some(next) => Replay(next, moves[1..])
  }

  lemma {:induction false} ReplayAppend(pegs: Pegs, first: seq<Move>, second: seq<Move>)
    ensures Replay(pegs, first + second) ==
      match Replay(pegs, first)
      case None => None
      case Some(mid) => Replay(mid, second)
    decreases |first|
  {
    if first == [] {
      assert first + second == second;
    } else {
      assert (first + second)[0] == first[0];
      assert (first + second)[1..] == first[1..] + second;
      match Apply(pegs, first[0])
      case None =>
      case Some(next) => ReplayAppend(next, first[1..], second);
    }
  }

  /** Moving the top disc onto a peg whose discs are all larger is legal. */
  lemma ApplyOntoLarger(pegs: Pegs, m: Move, rest: seq<nat>)
    requires m.origem != m.destino && m.origem in pegs && m.destino in pegs
    requires pegs[m.origem] == rest + [m.disco]
    requires Above(pegs[m.destino], m.disco)
    ensures Apply(pegs, m) == Some(pegs[m.origem := rest][m.destino := pegs[m.destino] + [m.disco]])
  {
    assert pegs[m.origem][..|pegs[m.origem]| - 1] == rest;
  }

  /** The three-peg bookkeeping of one recursive step: once the smaller discs leave
      the auxiliary peg again and land on disc `n`, only `origem` and `destino` differ
      from where the step began. */
  lemma ThreeStepsCompose(pegs: Pegs, origem: Peg, destino: Peg, auxiliar: Peg,
                          base: seq<nat>, n: nat)
    requires n >= 1
    requires origem != destino && destino != auxiliar && auxiliar != origem
    requires origem in pegs && destino in pegs && auxiliar in pegs
    ensures var s2 := AfterLargest(n, origem, destino, auxiliar, pegs, base);
      s2[auxiliar := pegs[auxiliar]][destino := s2[destino] + Tower(n - 1)]
        == pegs[origem := base][destino := pegs[destino] + Tower(n)]
  {
    assert [n] + Tower(n - 1) == Tower(n);
    assert pegs[destino] + [n] + Tower(n - 1) == pegs[destino] + Tower(n);
  }

  /** Three legs played one after the other: a move sequence, one move, a move sequence. */
  lemma ReplayThree(pegs: Pegs, first: seq<Move>, move: Move, second: seq<Move>,
                    mid: Pegs, after: Pegs, final: Pegs)
    requires Replay(pegs, first) == Some(mid)
    requires Apply(mid, move) == Some(after)
    requires Replay(after, second) == Some(final)
    ensures Replay(pegs, first + ([move] + second)) == Some(final)
  {
    ReplayAppend(pegs, first, [move] + second);
    assert ([move] + second)[0] == move;
    assert ([move] + second)[1..] == second;
  }

  /** Disc `n` leaves `origem` for `destino` once the smaller discs are on `auxiliar`. */
  lemma LargestMoveLands(n: nat, origem: Peg, destino: Peg, auxiliar: Peg, pegs: Pegs, base: seq<nat>)
    requires n >= 2
    requires origem != destino && destino != auxiliar && auxiliar != origem
    requires origem in pegs && destino in pegs && auxiliar in pegs
    requires Above(pegs[destino], n)
    ensures Apply(pegs[origem := base + [n]][auxiliar := pegs[auxiliar] + Tower(n - 1)], Move(n, origem, destino))
         == Some(AfterLargest(n, origem, destino, auxiliar, pegs, base))
  {
    var s1 := pegs[origem := base + [n]][auxiliar := pegs[auxiliar] + Tower(n - 1)];
    ApplyOntoLarger(s1, Move(n, origem, destino), base);
    assert s1[origem := base][destino := s1[destino] + [n]]
        == AfterLargest(n, origem, destino, auxiliar, pegs, base);
  }

  /** Gluing one recursive step together: if the smaller discs reach the auxiliary
      peg, and from the position after disc `n` has moved they reach `destino`, then
      the whole tower reaches `destino`. */
  lemma TowerStep(n: nat, origem: Peg, destino: Peg, auxiliar: Peg, pegs: Pegs, base: seq<nat>)
    requires n >= 2
    requires origem != destino && destino != auxiliar && auxiliar != origem
    requires origem in pegs && destino in pegs && auxiliar in pegs
    requires Above(pegs[destino], n)
    requires Replay(pegs, TorreHanoi(n - 1, origem, auxiliar, destino))
          == Some(pegs[origem := base + [n]][auxiliar := pegs[auxiliar] + Tower(n - 1)])
    requires Replay(AfterLargest(n, origem, destino, auxiliar, pegs, base),
                    TorreHanoi(n - 1, auxiliar, destino, origem))
          == Some(pegs[origem := base][destino := pegs[destino] + Tower(n)])
    ensures Replay(pegs, TorreHanoi(n, origem, destino, auxiliar))
         == Some(pegs[origem := base][destino := pegs[destino] + Tower(n)])
  {
    assert TorreHanoi(n, origem, destino, auxiliar)
        == TorreHanoi(n - 1, origem, auxiliar, destino)
           + ([Move(n, origem, destino)] + TorreHanoi(n - 1, auxiliar, destino, origem));
    LargestMoveLands(n, origem, destino, auxiliar, pegs, base);
    ReplayThree(pegs, TorreHanoi(n - 1, origem, auxiliar, destino), Move(n, origem, destino),
                TorreHanoi(n - 1, auxiliar, destino, origem),
                pegs[origem := base + [n]][auxiliar := pegs[auxiliar] + Tower(n - 1)],
                AfterLargest(n, origem, destino, auxiliar, pegs, base),
                pegs[origem := base][destino := pegs[destino] + Tower(n)]);
  }

  /** The position right after disc `n` has moved onto `destino`. */
  function AfterLargest(n: nat, origem: Peg, destino: Peg, auxiliar: Peg, pegs: Pegs, base: seq<nat>): Pegs
    requires n >= 1 && destino in pegs && auxiliar in pegs
  {
    pegs[origem := base][auxiliar := pegs[auxiliar] + Tower(n - 1)][destino := pegs[destino] + [n]]
  }

  lemma AfterLargestPegs(n: nat, origem: Peg, destino: Peg, auxiliar: Peg, pegs: Pegs, base: seq<nat>)
    requires n >= 1
    requires origem != destino && destino != auxiliar && auxiliar != origem
    requires origem in pegs && destino in pegs && auxiliar in pegs
    ensures var s2 := AfterLargest(n, origem, destino, auxiliar, pegs, base);
      && origem in s2 && destino in s2 && auxiliar in s2
      && s2[origem] == base
      && s2[auxiliar] == pegs[auxiliar] + Tower(n - 1)
      && s2[destino] == pegs[destino] + [n]
  {
  }

  lemma AboveLower(stack: seq<nat>, n: nat, m: nat)
    requires Above(stack, n) && 1 <= m <= n
    ensures Above(stack, m) && Above(stack + [n], m - 1)
  {
  }

  /** Moving a tower of `n` discs that sits on `base` at `origem` puts it on top of
      `destino`, provided every other disc in play is larger than `n`. */
  lemma {:induction false} ReplayTower(n: nat, origem: Peg, destino: Peg, auxiliar: Peg,
                                       pegs: Pegs, base: seq<nat>)
    requires n >= 1
    requires origem != destino && destino != auxiliar && auxiliar != origem
    requires origem in pegs && destino in pegs && auxiliar in pegs
    requires pegs[origem] == base + Tower(n)
    requires Above(base, n) && Above(pegs[destino], n) && Above(pegs[auxiliar], n)
    ensures Replay(pegs, TorreHanoi(n, origem, destino, auxiliar))
         == Some(pegs[origem := base][destino := pegs[destino] + Tower(n)])
    decreases n, 1
  {
    if n == 1 {
      assert pegs[origem] == base + [1];
      ApplyOntoLarger(pegs, Move(1, origem, destino), base);
    } else {
      SmallerToAuxiliary(n, origem, destino, auxiliar, pegs, base);
      AfterLargestReady(n, origem, destino, auxiliar, pegs, base);
      SmallerOntoLargest(n, origem, destino, auxiliar, AfterLargest(n, origem, destino, auxiliar, pegs, base),
                         pegs[auxiliar], pegs[origem := base][destino := pegs[destino] + Tower(n)]);
      TowerStep(n, origem, destino, auxiliar, pegs, base);
    }
  }

  /** First half of a step: the `n - 1` smaller discs go to the auxiliary peg. */
  lemma {:induction false} SmallerToAuxiliary(n: nat, origem: Peg, destino: Peg, auxiliar: Peg,
                                              pegs: Pegs, base: seq<nat>)
    requires n >= 2
    requires origem != destino && destino != auxiliar && auxiliar != origem
    requires origem in pegs && destino in pegs && auxiliar in pegs
    requires pegs[origem] == base + Tower(n)
    requires Above(base, n) && Above(pegs[destino], n) && Above(pegs[auxiliar], n)
    ensures Replay(pegs, TorreHanoi(n - 1, origem, auxiliar, destino))
         == Some(pegs[origem := base + [n]][auxiliar := pegs[auxiliar] + Tower(n - 1)])
    decreases n, 0
  {
    SmallerReady(n, pegs[origem], pegs[destino], pegs[auxiliar], base);
    ReplayTower(n - 1, origem, auxiliar, destino, pegs, base + [n]);
  }

  /** Before the first half: disc `n` joins the base, and the other pegs hold only
      discs larger than `n - 1`. */
  lemma SmallerReady(n: nat, from: seq<nat>, to: seq<nat>, via: seq<nat>, base: seq<nat>)
    requires n >= 2
    requires from == base + Tower(n)
    requires Above(base, n) && Above(to, n) && Above(via, n)
    ensures from == (base + [n]) + Tower(n - 1)
    ensures Above(base + [n], n - 1) && Above(to, n - 1) && Above(via, n - 1)
  {
    assert Tower(n) == [n] + Tower(n - 1);
    AboveLower(base, n, n);
    AboveLower(to, n, n - 1);
    AboveLower(via, n, n - 1);
  }

  /** Second half of a step: from the position `s2` after disc `n` has moved, the
      smaller discs go from `auxiliar` onto it. */
  lemma {:induction false} SmallerOntoLargest(n: nat, origem: Peg, destino: Peg, auxiliar: Peg,
                                              s2: Pegs, below: seq<nat>, final: Pegs)
    requires n >= 2
    requires origem != destino && destino != auxiliar && auxiliar != origem
    requires origem in s2 && destino in s2 && auxiliar in s2
    requires s2[auxiliar] == below + Tower(n - 1)
    requires Above(below, n - 1) && Above(s2[destino], n - 1) && Above(s2[origem], n - 1)
    requires s2[auxiliar := below][destino := s2[destino] + Tower(n - 1)] == final
    ensures Replay(s2, TorreHanoi(n - 1, auxiliar, destino, origem)) == Some(final)
    decreases n, 0
  {
    ReplayTower(n - 1, auxiliar, destino, origem, s2, below);
  }

  /** Before the second half: the smaller discs sit on `auxiliar` above discs larger
      than `n - 1`, and landing them on disc `n` completes the tower on `destino`. */
  lemma AfterLargestReady(n: nat, origem: Peg, destino: Peg, auxiliar: Peg, pegs: Pegs, base: seq<nat>)
    requires n >= 2
    requires origem != destino && destino != auxiliar && auxiliar != origem
    requires origem in pegs && destino in pegs && auxiliar in pegs
    requires Above(base, n) && Above(pegs[destino], n) && Above(pegs[auxiliar], n)
    ensures var s2 := AfterLargest(n, origem, destino, auxiliar, pegs, base);
      && origem in s2 && destino in s2 && auxiliar in s2
      && s2[auxiliar] == pegs[auxiliar] + Tower(n - 1)
      && Above(pegs[auxiliar], n - 1) && Above(s2[destino], n - 1) && Above(s2[origem], n - 1)
      && s2[auxiliar := pegs[auxiliar]][destino := s2[destino] + Tower(n - 1)]
         == pegs[origem := base][destino := pegs[destino] + Tower(n)]
  {
    AfterLargestPegs(n, origem, destino, auxiliar, pegs, base);
    AboveLower(base, n, n - 1);
    AboveLower(pegs[destino], n, n);
    AboveLower(pegs[auxiliar], n, n - 1);
    ThreeStepsCompose(pegs, origem, destino, auxiliar, base, n);
  }

  /** All discs on `origem`, the two other pegs empty. */
  function Start(n: nat, origem: Peg, destino: Peg, auxiliar: Peg): Pegs {
    map[origem := Tower(n), destino := [], auxiliar := []]
  }

  /** All discs on `destino`, the two other pegs empty. */
  function Goal(n: nat, origem: Peg, destino: Peg, auxiliar: Peg): Pegs {
    map[origem := [], destino := Tower(n), auxiliar := []]
  }

  /** The starting position meets what moving the whole tower needs, and the
      tower's arrival on `destino` is the goal position. */
  lemma StartReady(n: nat, origem: Peg, destino: Peg, auxiliar: Peg)
    requires origem != destino && destino != auxiliar && auxiliar != origem
    ensures var start := Start(n, origem, destino, auxiliar);
      && origem in start && destino in start && auxiliar in start
      && start[origem] == [] + Tower(n)
      && Above([], n) && Above(start[destino], n) && Above(start[auxiliar], n)
      && start[origem := []][destino := start[destino] + Tower(n)] == Goal(n, origem, destino, auxiliar)
  {
    var start := Start(n, origem, destino, auxiliar);
    assert start[origem] == [] + Tower(n);
    assert start[destino] + Tower(n) == Tower(n);
  }

  /** Every move is legal, and after the last one all discs sit on `destino`. */
  lemma SolvesPuzzle(n: nat, origem: Peg, destino: Peg, auxiliar: Peg)
    requires n >= 1
    requires origem != destino && destino != auxiliar && auxiliar != origem
    ensures Replay(Start(n, origem, destino, auxiliar), TorreHanoi(n, origem, destino, auxiliar))
         == Some(Goal(n, origem, destino, auxiliar))
  {
    StartReady(n, origem, destino, auxiliar);
    ReplayTower(n, origem, destino, auxiliar, Start(n, origem, destino, auxiliar), []);
  }

  /** No peg ever holds a disc on top of a smaller one. */
  predicate Ordered(pegs: Pegs) {
    forall p | p in pegs :: forall i, j | 0 <= i < j < |pegs[p]| :: pegs[p][i] > pegs[p][j]
  }

  /** A legal move keeps every peg ordered. */
  lemma ApplyKeepsOrder(pegs: Pegs, m: Move)
    requires Ordered(pegs)
    requires Apply(pegs, m).Some?
    ensures Ordered(Apply(pegs, m).value)
  {
    var next := Apply(pegs, m).value;
    forall p | p in next
      ensures forall i, j | 0 <= i < j < |next[p]| :: next[p][i] > next[p][j]
    {
      if p == m.destino {
        var to := pegs[m.destino];
        assert next[p] == to + [m.disco];
        forall i, j | 0 <= i < j < |next[p]| ensures next[p][i] > next[p][j] {
          if j == |to| && i < |to| {
            assert to[i] >= to[|to| - 1];
          }
        }
      }
    }
  }

  /** Replaying legal moves keeps every peg ordered, from start to finish. */
  lemma {:induction false} ReplayKeepsOrder(pegs: Pegs, moves: seq<Move>)
    requires Ordered(pegs)
    requires Replay(pegs, moves).Some?
    ensures Ordered(Replay(pegs, moves).value)
    decreases |moves|
  {
    if moves != [] {
      ApplyKeepsOrder(pegs, moves[0]);
      ReplayKeepsOrder(Apply(pegs, moves[0]).value, moves[1..]);
    }
  }

  lemma StartOrdered(n: nat, origem: Peg, destino: Peg, auxiliar: Peg)
    ensures Ordered(Start(n, origem, destino, auxiliar))
  {
  }

  /** At every point of the solver's replay all moves so far were legal and no disc
      sits on a smaller one. */
  lemma NeverLargerOnSmaller(n: nat, origem: Peg, destino: Peg, auxiliar: Peg, k: nat)
    requires n >= 1
    requires origem != destino && destino != auxiliar && auxiliar != origem
    requires k <= Pow2(n) - 1
    ensures var moves := TorreHanoi(n, origem, destino, auxiliar);
      var now := Replay(Start(n, origem, destino, auxiliar), moves[..k]);
      now.Some? && Ordered(now.value)
  {
    var start := Start(n, origem, destino, auxiliar);
    var moves := TorreHanoi(n, origem, destino, auxiliar);
    SolvesPuzzle(n, origem, destino, auxiliar);
    assert moves == moves[..k] + moves[k..];
    ReplayAppend(start, moves[..k], moves[k..]);
    StartOrdered(n, origem, destino, auxiliar);
    ReplayKeepsOrder(start, moves[..k]);
  }

  // ---------------------------------------------------------------------------
  // The text of a move, as the source builds it with an f-string

  const Lead: string := "Move o disco "
  const FromWord: string := " de "
  const ToWord: string := " para "

  /** `f"Move o disco {n} de {origem} para {destino}"`. */
  function Describe(m: Move): (line: string)
    ensures |line| > |Lead| && line[..|Lead|] == Lead && Decimal.IsDigit(line[|Lead|])
  {
    Lead + Decimal.Show(m.disco) + FromWord + m.origem + ToWord + m.destino
  }

  function DescribeAll(moves: seq<Move>): (lines: seq<string>)
    ensures |lines| == |moves|
    ensures forall i | 0 <= i < |moves| :: lines[i] == Describe(moves[i])
  {
    if moves == [] then [] else [Describe(moves[0])] + DescribeAll(moves[1..])
  }

  /** `s` without the leading `prefix`, if it starts with it. */
  function DropPrefix(prefix: string, s: string): (r: Option<string>)
    ensures r.Some? <==> |prefix| <= |s| && s[..|prefix|] == prefix
    ensures r.Some? ==> s == prefix + r.value
  {
    if |prefix| <= |s| && s[..|prefix|] == prefix then Some(s[|prefix|..]) else None
  }

  /** `s` cut in front of its first space (the second part is empty when there is none). */
  function SplitAtSpace(s: string): (r: (string, string))
    ensures r.0 + r.1 == s
    ensures ' ' !in r.0
    ensures r.1 == [] || r.1[0] == ' '
  {
    var i := Text.IndexOf(s, ' ', 0);
    (s[..i], s[i..])
  }

  /** Reads a move back from its text; the origin peg ends at the first space. */
  function ParseDescription(line: string): Option<Move>
  {
    var rest :- DropPrefix(Lead, line);
    var (digits, afterDigits) := SplitAtSpace(rest);
    if digits == [] || !Decimal.AllDigits(digits) then None
    else
      var tail :- DropPrefix(FromWord, afterDigits);
      var (origem, afterOrigem) := SplitAtSpace(tail);
      var destino :- DropPrefix(ToWord, afterOrigem);
      Some(Move(Decimal.Value(digits), origem, destino))
  }

  lemma DropPrefixOfConcat(prefix: string, s: string)
    ensures DropPrefix(prefix, prefix + s) == Some(s)
  {
    assert (prefix + s)[..|prefix|] == prefix;
  }

  /** Cutting `a + b` at its first space gives `a` back when `a` has no space and
      `b` starts with one. */
  lemma SplitAtSpaceOfConcat(a: string, b: string)
    requires ' ' !in a && |b| > 0 && b[0] == ' '
    ensures SplitAtSpace(a + b) == (a, b)
  {
    assert (a + b)[|a|] == ' ';
    assert forall k | 0 <= k < |a| :: (a + b)[k] == a[k];
    assert (a + b)[..|a|] == a;
    assert (a + b)[|a|..] == b;
  }

  /** A move whose origin peg has no space in its name is recovered from its text,
      so the rendering loses nothing. */
  lemma DescribeRoundTrip(m: Move)
    requires ' ' !in m.origem
    ensures ParseDescription(Describe(m)) == Some(m)
  {
    var digits := Decimal.Show(m.disco);
    var tail := m.origem + (ToWord + m.destino);
    var rest := digits + (FromWord + tail);
    assert Describe(m) == Lead + rest;
    assert ' ' !in digits by {
      assert forall k | 0 <= k < |digits| :: Decimal.IsDigit(digits[k]);
    }
    DropPrefixOfConcat(Lead, rest);
    SplitAtSpaceOfConcat(digits, FromWord + tail);
    DropPrefixOfConcat(FromWord, tail);
    SplitAtSpaceOfConcat(m.origem, ToWord + m.destino);
    DropPrefixOfConcat(ToWord, m.destino);
    Decimal.ValueOfShow(m.disco);
  }
}
