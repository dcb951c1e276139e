/** The agent's start waves: apps by their start group, one wave after the other. */
module StartWaves {
  import opened Seqs
  import opened Grouping

  datatype App = App(name: string, startGroup: int)

  /** Groups below zero start with group zero. */
  function StartGroup(a: App): nat {
    if a.startGroup < 0 then 0 else a.startGroup
  }

  method GroupAppsByStart(apps: seq<App>) returns (waves: seq<seq<App>>)
    ensures waves == Waves(apps, StartGroup)
  {
    if apps == [] {
      NoWaves();
      return [];
    }
    waves := GroupByKey(apps, StartGroup);
  }

  lemma NoWaves()
    ensures Waves<App>([], StartGroup) == []
  {
    assert Map(StartGroup, []) == [];
  }

  /** Every app starts in some wave. */
  lemma Starts(apps: seq<App>, a: App) returns (i: nat)
    requires a in apps
    ensures i < |Waves(apps, StartGroup)| && a in Waves(apps, StartGroup)[i]
  {
    var m :| 0 <= m < |apps| && apps[m] == a;
    SortSorts(Map(StartGroup, apps));
    assert Map(StartGroup, apps)[m] in Keys(apps, StartGroup);
    i :| 0 <= i < |Keys(apps, StartGroup)| && Keys(apps, StartGroup)[i] == StartGroup(a);
    BucketHas(apps, StartGroup, m);
  }

  /**
   * Every app starts in exactly one wave, and in an earlier one than another app exactly when its
   * group is lower and the other's is positive.
   */
  lemma StartOrder(apps: seq<App>, a: App, b: App) returns (i: nat, j: nat)
    requires a in apps && b in apps
    ensures var waves := Waves(apps, StartGroup);
      && (forall k :: 0 <= k < |waves| ==> (a in waves[k] <==> k == i) && (b in waves[k] <==> k == j))
      && i < |waves| && j < |waves|
      && (i < j <==> a.startGroup < b.startGroup && 0 < b.startGroup)
  {
    i := Starts(apps, a);
    j := Starts(apps, b);
    WavesSorted(apps, StartGroup);
  }

}
