/** The run-length encoding of trajectory arrays (proton-drive-setup). */
module RunLength {
  import opened Outcome

  function Repeat(v: int, n: nat): (r: seq<int>)
    ensures |r| == n && forall i | 0 <= i < n :: r[i] == v
  {
    if n == 0 then [] else Repeat(v, n - 1) + [v]
  }

  /** The first group of `code`, expanded, and the input after it. */
  function DecodeOne(code: seq<int>): Option<(seq<int>, seq<int>)> {
    if code == [] || code[0] == 0 then None
    else if code[0] > 0 then
      if |code| < 2 then None else Some((Repeat(code[1], code[0]), code[2..]))
    else
      if |code| < 1 - code[0] then None else Some((code[1..1 - code[0]], code[1 - code[0]..]))
  }

  /** Decode groups up to the 0 that ends them; also the input left after it. */
  function Decode(code: seq<int>): Option<(seq<int>, seq<int>)>
    decreases |code|
  {
    if code != [] && code[0] == 0 then Some(([], code[1..]))
    else
      match DecodeOne(code)
      case None => None
      case Some((data, tail)) => Prepend(data, Decode(tail))
  }

  function Prepend(data: seq<int>, r: Option<(seq<int>, seq<int>)>): Option<(seq<int>, seq<int>)> {
    match r
    case None => None
    case Some((rest, left)) => Some((data + rest, left))
  }

  datatype Group = Run(n: nat, v: int) | Literals(lits: seq<int>)

  predicate Proper(g: Group) {
    if g.Run? then g.n > 0 else g.lits != []
  }

  function Code(g: Group): seq<int> {
    match g
    case Run(n, v) => [n, v]
    case Literals(lits) => [-|lits|] + lits
  }

  function Meaning(g: Group): seq<int> {
    match g
    case Run(n, v) => Repeat(v, n)
    case Literals(lits) => lits
  }

  function Codes(gs: seq<Group>): seq<int>
    decreases |gs|
  {
    if gs == [] then [] else Codes(gs[..|gs| - 1]) + Code(gs[|gs| - 1])
  }

  function Data(gs: seq<Group>): seq<int>
    decreases |gs|
  {
    if gs == [] then [] else Data(gs[..|gs| - 1]) + Meaning(gs[|gs| - 1])
  }

  lemma DecodeGroup(g: Group, tail: seq<int>)
    requires Proper(g)
    ensures DecodeOne(Code(g) + tail) == Some((Meaning(g), tail))
    ensures (Code(g) + tail)[0] != 0
  {
    var code := Code(g) + tail;
    match g
    case Run(n, v) =>
      assert code[2..] == tail;
    case Literals(lits) =>
      assert code[1..1 + |lits|] == lits && code[1 + |lits|..] == tail;
  }

  lemma Regroup(a: seq<int>, b: seq<int>, c: seq<int>)
    ensures a + b + c == a + (b + c)
  {
  }

  /** A sequence of groups decodes to its data, whatever follows. */
  lemma {:induction false} DecodeGroups(gs: seq<Group>, tail: seq<int>)
    requires forall g | g in gs :: Proper(g)
    ensures Decode(Codes(gs) + tail) == Prepend(Data(gs), Decode(tail))
    decreases |gs|
  {
    if gs == [] {
      assert [] + tail == tail;
      assert Decode(tail).Some? ==> [] + Decode(tail).value.0 == Decode(tail).value.0;
    } else {
      var front, g := gs[..|gs| - 1], gs[|gs| - 1];
      var next := Code(g) + tail;
      assert Decode(next) == Prepend(Meaning(g), Decode(tail)) by {
        DecodeGroup(g, tail);
      }
      DecodeGroups(front, next);
      Regroup(Codes(front), Code(g), tail);
      if Decode(tail).Some? {
        Regroup(Data(front), Meaning(g), Decode(tail).value.0);
      }
    }
  }

  // ----- what a good code looks like -----

  predicate NoRepeats(lits: seq<int>) {
    forall i | 0 < i < |lits| :: lits[i - 1] != lits[i]
  }

  predicate Crisp(g: Group) {
    Proper(g) && (g.Literals? ==> NoRepeats(g.lits))
  }

  function FirstOf(g: Group): int
    requires Proper(g)
  {
    if g.Run? then g.v else g.lits[0]
  }

  function LastOf(g: Group): int
    requires Proper(g)
  {
    if g.Run? then g.v else g.lits[|g.lits| - 1]
  }

  /** Literals never repeat a value, and no group goes on with the value the one before ended in. */
  ghost predicate Sharp(gs: seq<Group>) {
    && (forall i | 0 <= i < |gs| :: Crisp(gs[i]))
    && (forall i | 0 < i < |gs| :: LastOf(gs[i - 1]) != FirstOf(gs[i]))
  }

  /** So equal neighbours are always in one run; and only the last group may be a run of one. */
  ghost predicate Canonical(gs: seq<Group>) {
    Sharp(gs) && forall i | 0 <= i < |gs| - 1 && gs[i].Run? :: gs[i].n >= 2
  }

  ghost predicate EndsOff(gs: seq<Group>, v: int) {
    gs != [] ==> Crisp(gs[|gs| - 1]) && LastOf(gs[|gs| - 1]) != v
  }

  ghost predicate LongRuns(gs: seq<Group>) {
    forall i | 0 <= i < |gs| && gs[i].Run? :: gs[i].n >= 2
  }

  lemma SharpSnoc(gs: seq<Group>, g: Group)
    requires Sharp(gs) && Crisp(g) && EndsOff(gs, FirstOf(g)) && LongRuns(gs)
    ensures Sharp(gs + [g]) && Canonical(gs + [g])
    ensures (g.Run? ==> g.n >= 2) ==> LongRuns(gs + [g])
    ensures forall v :: v != LastOf(g) ==> EndsOff(gs + [g], v)
  {
  }

  /** What the encoder has read but not written yet: a run, or literals. */
  function Pending(rep: nat, last: int, lits: seq<int>): seq<int> {
    if rep > 1 then Repeat(last, rep) else lits
  }

  /** The encoder's loop invariant: `gs` are the groups written so far. */
  ghost predicate Encoding(seen: seq<int>, gs: seq<Group>, rep: nat, last: int, lits: seq<int>) {
    && rep >= 1
    && (if rep > 1 then |lits| <= 1 else lits != [] && lits[|lits| - 1] == last)
    && (forall g | g in gs :: Proper(g))
    && Sharp(gs) && LongRuns(gs) && EndsOff(gs, if rep > 1 then last else lits[0])
    && (rep == 1 ==> NoRepeats(lits))
    && seen == Data(gs) + Pending(rep, last, lits)
    && 3 * |Codes(gs)| <= 4 * |Data(gs)| + (if rep > 1 && lits == [] then 2 else 0)
  }

  lemma StartEncoding(v: int)
    ensures Encoding([v], [], 1, v, [v]) && Codes([]) == []
  {
    assert [v] == Data([]) + [v];
  }

  lemma AddGroup(gs: seq<Group>, g: Group)
    ensures Codes(gs + [g]) == Codes(gs) + Code(g) && Data(gs + [g]) == Data(gs) + Meaning(g)
  {
    assert (gs + [g])[..|gs|] == gs;
  }

  lemma RepeatTwice(v: int)
    ensures Repeat(v, 1) == [v] && Repeat(v, 2) == [v, v]
  {
    assert Repeat(v, 0) == [];
  }

  lemma ExtendRun(seen: seq<int>, gs: seq<Group>, rep: nat, last: int, lits: seq<int>)
    requires Encoding(seen, gs, rep, last, lits) && |lits| <= 1
    ensures Encoding(seen + [last], gs, rep + 1, last, lits)
  {
    RepeatTwice(last);
    if rep == 1 {
      assert lits == [last];
    }
    assert Repeat(last, rep + 1) == Pending(rep, last, lits) + [last];
  }

  /** A value equal to the last of several literals starts a run. */
  lemma {:induction false} FlushLiterals(seen: seq<int>, gs: seq<Group>, last: int, lits: seq<int>, front: seq<int>)
    requires Encoding(seen, gs, 1, last, lits) && lits == front + [last] && front != []
    ensures Encoding(seen + [last], gs + [Literals(front)], 2, last, [])
    ensures Codes(gs + [Literals(front)]) == Codes(gs) + ([-|front|] + front)
  {
    hide Codes, Data, Repeat;
    assert front == lits[..|front|] && lits[|front|] == last;
    SharpSnoc(gs, Literals(front));
    AddGroup(gs, Literals(front));
    SplitRun(Data(gs), front, last);
    assert |Code(Literals(front))| == |front| + 1;
  }

  lemma SplitRun(data: seq<int>, front: seq<int>, last: int)
    ensures data + (front + [last]) + [last] == data + front + Repeat(last, 2)
  {
    RepeatTwice(last);
    Regroup(data, front, [last]);
    Regroup(data + front, [last], [last]);
  }

  lemma FlushRun(seen: seq<int>, gs: seq<Group>, rep: nat, last: int, lits: seq<int>, v: int)
    requires Encoding(seen, gs, rep, last, lits) && rep > 1 && v != last
    ensures Encoding(seen + [v], gs + [Run(rep, last)], 1, v, [v])
    ensures Codes(gs + [Run(rep, last)]) == Codes(gs) + [rep, last]
  {
    SharpSnoc(gs, Run(rep, last));
    AddGroup(gs, Run(rep, last));
  }

  lemma ExtendLiterals(seen: seq<int>, gs: seq<Group>, last: int, lits: seq<int>, v: int)
    requires Encoding(seen, gs, 1, last, lits) && v != last
    ensures Encoding(seen + [v], gs, 1, v, lits + [v])
  {
    assert seen + [v] == Data(gs) + (lits + [v]);
  }

  /** `code` decodes to `data` and stops there, and is at most a third longer. */
  ghost predicate Encodes(code: seq<int>, data: seq<int>) {
    && (forall tail: seq<int> :: Decode(code + tail) == Some((data, tail)))
    && 3 * |code| <= 4 * |data| + 5
  }

  lemma Terminated(gs: seq<Group>)
    requires (forall g | g in gs :: Proper(g)) && 3 * |Codes(gs)| <= 4 * |Data(gs)| + 2
    ensures Encodes(Codes(gs) + [0], Data(gs))
  {
    forall tail: seq<int>
      ensures Decode(Codes(gs) + [0] + tail) == Some((Data(gs), tail))
    {
      var end := [0] + tail;
      assert end[1..] == tail;
      DecodeGroups(gs, end);
      Regroup(Codes(gs), [0], tail);
      assert Data(gs) + [] == Data(gs);
    }
  }

  /** The last group: literals if several are pending, else a run of what is left. */
  lemma Close(seen: seq<int>, gs: seq<Group>, rep: nat, last: int, lits: seq<int>)
    requires Encoding(seen, gs, rep, last, lits)
    ensures Encodes(Codes(gs) + (if |lits| > 1 then [-|lits|] + lits else [rep, last]) + [0], seen)
    ensures var g := if |lits| > 1 then Literals(lits) else Run(rep, last);
            && Canonical(gs + [g]) && Data(gs + [g]) == seen
            && Codes(gs + [g]) == Codes(gs) + (if |lits| > 1 then [-|lits|] + lits else [rep, last])
  {
    hide Codes, Data, Repeat, Decode, Encodes;
    var g := if |lits| > 1 then Literals(lits) else Run(rep, last);
    SharpSnoc(gs, g);
    AddGroup(gs, g);
    if |lits| > 1 {
      CloseWith(seen, gs, Literals(lits));
    } else {
      RepeatTwice(last);
      CloseWith(seen, gs, Run(rep, last));
    }
  }

  lemma CloseWith(seen: seq<int>, gs: seq<Group>, g: Group)
    requires (forall h | h in gs :: Proper(h)) && Proper(g)
    requires seen == Data(gs) + Meaning(g) && 3 * |Codes(gs)| + 3 * |Code(g)| <= 4 * |seen| + 2
    ensures Encodes(Codes(gs) + Code(g) + [0], seen)
  {
    hide Codes, Data, Encodes;
    AddGroup(gs, g);
    Terminated(gs + [g]);
  }

  lemma EncodesNothing()
    ensures Encodes([0], []) && Canonical([]) && Data([]) == [] && [0] == Codes([]) + [0]
  {
    Terminated([]);
    assert [] + [0] == [0];
  }

  /** One round of the encoder's loop. */
  method Step(v: int, result: seq<int>, rep: nat, last: int, lits: seq<int>, ghost seen: seq<int>, ghost gs: seq<Group>)
    returns (result': seq<int>, rep': nat, lits': seq<int>, ghost gs': seq<Group>)
    requires Encoding(seen, gs, rep, last, lits) && result == Codes(gs)
    ensures Encoding(seen + [v], gs', rep', v, lits') && result' == Codes(gs') && rep' >= 1
  {
    hide Codes, Data, Repeat;
    if v == last {
      if |lits| > 1 {
        lits' := lits[..|lits| - 1];
        assert lits == lits' + [last];
        FlushLiterals(seen, gs, last, lits, lits');
        gs' := gs + [Literals(lits')];
        result' := result + ([-|lits'|] + lits');
        lits' := [];
      } else {
        ExtendRun(seen, gs, rep, last, lits);
        result', lits', gs' := result, lits, gs;
      }
      rep' := rep + 1;
    } else if rep > 1 {
      FlushRun(seen, gs, rep, last, lits, v);
      gs' := gs + [Run(rep, last)];
      result', rep', lits' := result + [rep, last], 1, [v];
    } else {
      ExtendLiterals(seen, gs, last, lits, v);
      result', rep', lits', gs' := result, rep, lits + [v], gs;
    }
  }

  /**
   * The code of every integer list decodes to that list, whatever follows it,
   * and is in canonical groups: each stretch of equal values is one run.
   */
  method CompressArray(arr: seq<int>) returns (code: seq<int>, ghost gs: seq<Group>)
    ensures Encodes(code, arr)
    ensures Canonical(gs) && Data(gs) == arr && code == Codes(gs) + [0]
  {
    hide Codes, Data, Code, Encodes, Encoding, Canonical;
    gs := [];
    if arr == [] {
      EncodesNothing();
      code := [0];
      return;
    }
    var result: seq<int> := [];
    var rep: nat, last := 1, arr[0];
    var lits := [last];
    StartEncoding(last);
    assert arr[..1] == [last];
    for i := 1 to |arr|
      invariant Encoding(arr[..i], gs, rep, last, lits) && result == Codes(gs) && rep >= 1
    {
      assert arr[..i + 1] == arr[..i] + [arr[i]];
      result, rep, lits, gs := Step(arr[i], result, rep, last, lits, arr[..i], gs);
      last := arr[i];
    }
    assert arr[..|arr|] == arr;
    Close(arr, gs, rep, last, lits);
    gs := gs + [if |lits| > 1 then Literals(lits) else Run(rep, last)];
    if |lits| > 1 {
      result := result + ([-|lits|] + lits);
    } else if rep >= 1 {
      result := result + [rep, last];
    }
    code := result + [0];
  }

  /** Decode four arrays, one after the other. */
  function DecodeFour(code: seq<int>): Option<(seq<int>, seq<int>, seq<int>, seq<int>)> {
    match Decode(code)
    case None => None
    case Some((a, r1)) =>
      match Decode(r1)
      case None => None
      case Some((b, r2)) =>
        match Decode(r2)
        case None => None
        case Some((c, r3)) =>
          match Decode(r3)
          case None => None
          case Some((d, r4)) => if r4 == [] then Some((a, b, c, d)) else None
  }

  /** The four concatenated encodings come apart again, with nothing left over. */
  method CombineArrays(xs: seq<int>, ys: seq<int>, buttons: seq<int>, timestamps: seq<int>) returns (combined: seq<int>)
    ensures DecodeFour(combined) == Some((xs, ys, buttons, timestamps))
  {
    hide Codes, Data, Canonical;
    var a, _ := CompressArray(xs);
    var b, _ := CompressArray(ys);
    var c, _ := CompressArray(buttons);
    var d, _ := CompressArray(timestamps);
    combined := a + b + c + d;
    assert combined == a + (b + (c + (d + [])));
  }
}
