/** Runs of the gateway put together and taken apart. */
module GatewayRuns {
  import opened Gateway

  lemma RunCons(g: Gate, s: Step, steps: seq<Step>)
    ensures Run(g, [s] + steps) == Run(Stepped(g, s), steps)
  {
    assert ([s] + steps)[1..] == steps;
  }

  lemma {:induction false} RunAppend(g: Gate, first: seq<Step>, second: seq<Step>)
    ensures Run(g, first + second) == Run(Run(g, first), second)
    decreases |first|
  {
    if first == [] {
      assert first + second == second;
    } else {
      var next := Stepped(g, first[0]);
      assert first + second == [first[0]] + (first[1..] + second);
      RunCons(g, first[0], first[1..] + second);
      RunAppend(next, first[1..], second);
    }
  }

  lemma RunOfOne(g: Gate, a: Step)
    ensures Run(g, [a]) == Stepped(g, a)
  {
    assert [a][1..] == [];
  }

  lemma RunSnoc(g: Gate, steps: seq<Step>, s: Step)
    ensures Run(g, steps + [s]) == Stepped(Run(g, steps), s)
  {
    RunAppend(g, steps, [s]);
    RunOfOne(Run(g, steps), s);
  }

  lemma RunOfTwo(g: Gate, a: Step, b: Step)
    ensures Run(g, [a, b]) == Stepped(Stepped(g, a), b)
  {
    RunCons(g, a, [b]);
    assert [a] + [b] == [a, b];
    RunOfOne(Stepped(g, a), b);
  }

  lemma RunOfThree(g: Gate, a: Step, b: Step, c: Step)
    ensures Run(g, [a, b, c]) == Stepped(Stepped(Stepped(g, a), b), c)
  {
    RunCons(g, a, [b, c]);
    assert [a] + [b, c] == [a, b, c];
    RunOfTwo(Stepped(g, a), b, c);
  }

  lemma RunOfFour(g: Gate, a: Step, b: Step, c: Step, d: Step)
    ensures Run(g, [a, b, c, d]) == Stepped(Stepped(Stepped(Stepped(g, a), b), c), d)
  {
    RunCons(g, a, [b, c, d]);
    assert [a] + [b, c, d] == [a, b, c, d];
    RunOfThree(Stepped(g, a), b, c, d);
  }
}
