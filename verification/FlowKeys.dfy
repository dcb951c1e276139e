/** The string keys under which the editor files tasks: block id, colon, phase. */
module FlowKeys {
  import opened Seqs
  import opened FlowModel
  import opened FlowWire

  function TaskKey(c: Chip): string {
    c.owner + ":" + PhaseName(c.phase)
  }

  function LastIndexOf(s: string, c: char): (k: int)
    ensures -1 <= k < |s|
    ensures k >= 0 ==> s[k] == c
    ensures forall i :: k < i < |s| ==> s[i] != c
  {
    if s == "" then -1 else if s[|s| - 1] == c then |s| - 1 else LastIndexOf(s[..|s| - 1], c)
  }

  /** What is in front of the last colon, and what is behind it. */
  function KeyOwner(key: string): string {
    var k := LastIndexOf(key, ':');
    if k < 0 then key[..|key| - Min(|key|, 1)] else key[..k]
  }

  function KeyPhase(key: string): string {
    key[LastIndexOf(key, ':') + 1..]
  }

  lemma NoColon(p: Phase)
    ensures ':' !in PhaseName(p)
  {
  }

  lemma ColonAt(c: Chip)
    ensures LastIndexOf(TaskKey(c), ':') == |c.owner|
  {
    var key, name := TaskKey(c), PhaseName(c.phase);
    NoColon(c.phase);
    assert key[|c.owner|] == ':';
    forall i | |c.owner| < i < |key| ensures key[i] != ':' {
      assert key[i] == name[i - |c.owner| - 1];
    }
  }

  /** A key gives back its block id, whatever the id contains, and its phase; so no two tasks share one. */
  lemma KeyReads(c: Chip)
    ensures KeyOwner(TaskKey(c)) == c.owner && ParsePhase(KeyPhase(TaskKey(c))) == Some(c.phase)
  {
    ColonAt(c);
    assert KeyPhase(TaskKey(c)) == PhaseName(c.phase);
    var p := ParsePhase(PhaseName(c.phase));
    assert p.Some?;
    PhaseNameInjective(p.value, c.phase);
  }

  lemma KeysDiffer(c: Chip, d: Chip)
    ensures TaskKey(c) == TaskKey(d) <==> c == d
  {
    KeyReads(c);
    KeyReads(d);
  }
}
