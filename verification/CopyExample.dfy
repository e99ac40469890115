/** The copy of the circuit x OR NOT x. */
module CopyExample {
  import opened GateGraph
  import opened SweepOutcome
  import opened CircuitCopy

  lemma TautologyCanBeCopied()
    ensures SourceOk(Source(TAUTOLOGY, 1, 2, {1, 3})) && Ranked(TAUTOLOGY, Numbered)
  {
    TautologyIsBoolean();
    TautologyNumbers();
    hide TAUTOLOGY, Mirrored, Ranked;
  }

  /** The copy goes through. */
  method CopyTautology() returns (construction: CopyConstruction)
    ensures IsCopy(construction.From(), construction.gates, construction.translation)
    ensures construction.From() == Source(TAUTOLOGY, 1, 2, {1, 3})
  {
    TautologyCanBeCopied();
    hide TAUTOLOGY, SourceOk, CopyOk, WorkOk, IsCopy, Ranked;
    construction := new CopyConstruction(TAUTOLOGY, 1, 2, {1, 3});
    construction.Copy(Numbered);
  }
}
