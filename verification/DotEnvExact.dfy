/** When reading back what was written gives the same map: exactly when every key and every value is good. */
module DotEnvExact {
  import opened Seqs
  import opened Text
  import opened Chunks
  import opened DotEnv
  import opened DotEnvTrip

  // ---- lines ----

  lemma HeaderIsLine()
    ensures '\n' !in Header && Trimmed(Header) && Header != ""
    ensures HasPrefix(Header, "#") && Header[|Header| - 1] != '\r'
  {
    var a, b, c, d, e := "# Written by", " CronCompose", " deploy — do", " not edit", " during a run";
    assert '\n' !in a && '\n' !in b && '\n' !in c && '\n' !in d && '\n' !in e;
    assert Header[0] == a[0] == '#' && Header[|Header| - 1] == e[|e| - 1] == 'n';
  }

  ghost predicate CleanEnv(env: Env) {
    forall k :: k in env ==> CleanKey(k) && '\n' !in env[k]
  }

  ghost predicate Known(keys: seq<string>, env: Env) {
    forall i :: 0 <= i < |keys| ==> keys[i] in env
  }

  function Lines(env: Env, keys: seq<string>): (r: seq<string>)
    ensures |r| == |keys| && forall i :: 0 <= i < |keys| ==> r[i] == Line(env, keys[i])
  {
    if keys == [] then [] else [Line(env, keys[0])] + Lines(env, keys[1..])
  }

  lemma {:induction false} BodyPieces(env: Env, keys: seq<string>)
    requires CleanEnv(env) && Known(keys, env)
    ensures Pieces(Body(env, keys), "\n").0 == Lines(env, keys)
    ensures Pieces(Body(env, keys), "\n").1 == ""
  {
    if keys == [] {
      FindChar("", '\n');
    } else {
      var k := keys[0];
      QuotedShape(env[k]);
      assert Known(keys[1..], env);
      BodyPieces(env, keys[1..]);
      PiecesStep(Line(env, k), Body(env, keys[1..]));
    }
  }

  /** With clean keys and newline-free values, the lines read are the header, one line a key, and an empty one. */
  lemma LinesRead(env: Env, keys: seq<string>)
    requires CleanEnv(env) && Known(keys, env)
    ensures Split(Header + "\n" + Body(env, keys), "\n") == [Header] + Lines(env, keys) + [""]
  {
    BodyPieces(env, keys);
    HeaderIsLine();
    PiecesStep(Header, Body(env, keys));
  }

  // ---- applying settings ----

  ghost predicate Sets(o: Option<Setting>, k: string) {
    o.Some? && o.value.key == k
  }

  lemma {:induction false} AppliedMember(settings: seq<Option<Setting>>, out: Env, k: string)
    ensures k in Apply(settings, out) <==> k in out || exists i :: 0 <= i < |settings| && Sets(settings[i], k)
  {
    if settings == [] {
    } else {
      var next := match settings[0] case None => out case Some(s) => out[s.key := s.value];
      AppliedMember(settings[1..], next, k);
      if i :| 0 <= i < |settings[1..]| && Sets(settings[1..][i], k) {
        assert Sets(settings[i + 1], k);
      }
      if i :| 0 < i < |settings| && Sets(settings[i], k) {
        assert Sets(settings[1..][i - 1], k);
      }
    }
  }

  /** A key's value comes from the map so far or from one of the settings. */
  lemma {:induction false} AppliedValue(settings: seq<Option<Setting>>, out: Env, k: string)
    requires k in Apply(settings, out)
    ensures var v := Apply(settings, out)[k];
      (k in out && v == out[k]) || exists i :: 0 <= i < |settings| && settings[i] == Some(Setting(k, v))
  {
    if settings == [] {
    } else {
      var next := match settings[0] case None => out case Some(s) => out[s.key := s.value];
      var v := Apply(settings, out)[k];
      AppliedValue(settings[1..], next, k);
      if exists i :: 0 <= i < |settings[1..]| && settings[1..][i] == Some(Setting(k, v)) {
        var i :| 0 <= i < |settings[1..]| && settings[1..][i] == Some(Setting(k, v));
        assert settings[i + 1] == Some(Setting(k, v));
      } else if !(k in out && v == out[k]) {
        assert settings[0] == Some(Setting(k, v));
      }
    }
  }

  /** Whatever the text, every key read is clean and no value has a newline. */
  lemma ParsedIsClean(content: string)
    ensures CleanEnv(Parsed(content))
  {
    var lines := Split(content, "\n");
    PiecesClean(content);
    forall i | 0 <= i < |lines| ensures CleanSetting(ParseLine(lines[i])) {
      ParseLineShape(lines[i]);
    }
    AppliedClean(Map(ParseLine, lines));
  }

  ghost predicate CleanSetting(o: Option<Setting>) {
    o.Some? ==> CleanKey(o.value.key) && '\n' !in o.value.value
  }

  lemma AppliedClean(settings: seq<Option<Setting>>)
    requires forall i :: 0 <= i < |settings| ==> CleanSetting(settings[i])
    ensures CleanEnv(Apply(settings, map[]))
  {
    var r := Apply(settings, map[]);
    forall k | k in r ensures CleanKey(k) && '\n' !in r[k] {
      AppliedValue(settings, map[], k);
      var i :| 0 <= i < |settings| && settings[i] == Some(Setting(k, r[k]));
      assert CleanSetting(settings[i]);
    }
  }

  lemma HeaderSetsNothing()
    ensures ParseLine(Header).None? && ParseLine("").None?
  {
    HeaderIsLine();
    TrimOfTrimmed(Header);
    ParseLineCases(Header);
  }

  // ---- the round trip, with what one line sets left abstract ----

  /** Every key of the map, in some order and perhaps repeated, and nothing else. */
  ghost predicate Listed(keys: seq<string>, env: Env) {
    Known(keys, env) && (forall k :: k in env ==> k in keys)
  }

  /** A good key's line sets it to what its value reads as; any other sets nothing or something shorter. */
  ghost predicate LineSets(good: string -> bool, read: string -> string, k: string, v: string, o: Option<Setting>) {
    if good(k) then o == Some(Setting(k, read(v))) else o.Some? ==> |o.value.key| < |k|
  }

  ghost predicate LinesSet(good: string -> bool, read: string -> string, env: Env, keys: seq<string>,
                           settings: seq<Option<Setting>>)
  {
    && |settings| == |keys| && Listed(keys, env)
    && (forall i :: 0 <= i < |keys| ==> LineSets(good, read, keys[i], env[keys[i]], settings[i]))
  }

  lemma {:induction false} Longest(ks: set<string>)
    requires ks != {}
    ensures exists k :: k in ks && forall x :: x in ks ==> |x| <= |k|
    decreases |ks|
  {
    var k :| k in ks;
    if ks != {k} {
      assert ks - {k} != {};
      Longest(ks - {k});
      var l :| l in ks - {k} && forall x :: x in ks - {k} ==> |x| <= |l|;
      var m := if |k| <= |l| then l else k;
      assert forall x :: x in ks ==> |x| <= |m|;
    }
  }

  /** No bad key survives: the longest one would need a longer one. */
  lemma BadKeyLost(good: string -> bool, read: string -> string, env: Env, keys: seq<string>,
                   settings: seq<Option<Setting>>, k: string)
    requires LinesSet(good, read, env, keys, settings) && k in env && !good(k)
    ensures Apply(settings, map[]) != env
  {
    var bad := set x | x in env && !good(x);
    assert k in bad;
    Longest(bad);
    var l :| l in bad && forall x :: x in bad ==> |x| <= |l|;
    AppliedMember(settings, map[], l);
    forall i | 0 <= i < |settings| ensures !Sets(settings[i], l) {
      if !good(keys[i]) {
        assert keys[i] in bad;
      }
    }
  }

  lemma GoodKeyReads(good: string -> bool, read: string -> string, env: Env, keys: seq<string>,
                     settings: seq<Option<Setting>>, k: string)
    requires LinesSet(good, read, env, keys, settings) && (forall x :: x in env ==> good(x))
    ensures k in Apply(settings, map[]) <==> k in env
    ensures k in env ==> Apply(settings, map[])[k] == read(env[k])
  {
    AppliedMember(settings, map[], k);
    if k in env {
      var i :| 0 <= i < |keys| && keys[i] == k;
      assert Sets(settings[i], k);
    }
    if k in Apply(settings, map[]) {
      AppliedValue(settings, map[], k);
    }
  }

  lemma AbstractTrip(good: string -> bool, read: string -> string, env: Env, keys: seq<string>,
                     settings: seq<Option<Setting>>)
    requires LinesSet(good, read, env, keys, settings)
    ensures Apply(settings, map[]) == env <==> forall k :: k in env ==> good(k) && read(env[k]) == env[k]
  {
    if k :| k in env && !good(k) {
      BadKeyLost(good, read, env, keys, settings, k);
    } else {
      forall k: string {
        GoodKeyReads(good, read, env, keys, settings, k);
      }
    }
  }

  // ---- the round trip ----

  function ReadOf(v: string): string {
    Unquote(Trim(Quoted(v)))
  }

  predicate IsGood(k: string) {
    GoodKey(k)
  }

  lemma LineSetsItself(k: string, v: string)
    requires CleanKey(k) && '\n' !in v
    ensures LineSets(IsGood, ReadOf, k, v, ParseLine(k + "=" + Quoted(v)))
  {
    if HasPrefix(k, Export) {
      ExportSetsShorter(k, v);
    } else {
      ParseWrittenLine(k, v);
    }
  }

  lemma {:induction false} SkipNone(settings: seq<Option<Setting>>, out: Env)
    ensures Apply([None] + settings, out) == Apply(settings, out)
    ensures Apply(settings + [None], out) == Apply(settings, out)
  {
    assert ([None] + settings)[1..] == settings;
    if settings == [] {
      assert settings + [None] == [None];
    } else {
      assert (settings + [None])[1..] == settings[1..] + [None];
      SkipNone(settings[1..], match settings[0] case None => out case Some(s) => out[s.key := s.value]);
    }
  }

  function Settings(env: Env, keys: seq<string>): seq<Option<Setting>> {
    Map(ParseLine, Lines(env, keys))
  }

  lemma MapAround<T, U>(f: T -> U, first: T, xs: seq<T>, last: T)
    ensures Map(f, [first] + xs + [last]) == [f(first)] + (Map(f, xs) + [f(last)])
  {
  }

  lemma ReadBackApplies(env: Env, keys: seq<string>)
    requires CleanEnv(env) && Known(keys, env) && keys != []
    ensures ReadBack(Written(env, keys)) == Apply(Settings(env, keys), map[])
  {
    LinesRead(env, keys);
    HeaderSetsNothing();
    MapAround(ParseLine, Header, Lines(env, keys), "");
    SkipNone(Settings(env, keys) + [None], map[]);
    SkipNone(Settings(env, keys), map[]);
  }

  ghost predicate GoodEnv(env: Env) {
    forall k :: k in env ==> GoodKey(k) && GoodValue(env[k])
  }

  lemma TrimFixesTrimmed(v: string)
    ensures Trim(v) == v <==> Trimmed(v)
  {
    if Trimmed(v) {
      TrimOfTrimmed(v);
    }
  }

  lemma CleanKeysAreListed(env: Env, keys: seq<string>)
    requires CleanEnv(env) && Lists(keys, env)
    ensures Listed(keys, env)
  {
    forall k | k in env ensures Trim(k) == k && k in keys {
      TrimOfTrimmed(k);
    }
    forall i | 0 <= i < |keys| ensures keys[i] in env {
      assert keys[i] in keys;
      var raw :| raw in env && Trim(raw) == keys[i];
    }
  }

  lemma ReadsSame(v: string)
    requires '\n' !in v
    ensures ReadOf(v) == v <==> GoodValue(v)
  {
    UnquoteOfQuoted(v);
    TrimFixesTrimmed(v);
  }

  lemma SettingsSet(env: Env, keys: seq<string>)
    requires CleanEnv(env) && Listed(keys, env)
    ensures LinesSet(IsGood, ReadOf, env, keys, Settings(env, keys))
  {
    forall i | 0 <= i < |keys| ensures LineSets(IsGood, ReadOf, keys[i], env[keys[i]], Settings(env, keys)[i]) {
      LineSetsItself(keys[i], env[keys[i]]);
    }
  }

  lemma GoodsAgree(env: Env)
    requires CleanEnv(env)
    ensures GoodEnv(env) <==> forall k :: k in env ==> IsGood(k) && ReadOf(env[k]) == env[k]
  {
    forall k | k in env ensures ReadOf(env[k]) == env[k] <==> GoodValue(env[k]) {
      ReadsSame(env[k]);
    }
  }

  lemma CleanTrip(env: Env, keys: seq<string>, r: Env)
    requires CleanEnv(env) && Listed(keys, env) && r == Apply(Settings(env, keys), map[])
    ensures r == env <==> GoodEnv(env)
  {
    SettingsSet(env, keys);
    AbstractTrip(IsGood, ReadOf, env, keys, Settings(env, keys));
    GoodsAgree(env);
  }

  lemma DirtyTrip(env: Env, keys: seq<string>)
    requires Lists(keys, env) && !CleanEnv(env)
    ensures ReadBack(Written(env, keys)) != env
  {
    if keys != [] {
      ParsedIsClean(Written(env, keys).value);
    }
  }

  lemma ListedTrip(env: Env, keys: seq<string>)
    requires Listed(keys, env) && CleanEnv(env)
    ensures ReadBack(Written(env, keys)) == env <==> GoodEnv(env)
  {
    if keys == [] {
      assert forall k :: k !in env;
    } else {
      ReadBackApplies(env, keys);
      CleanTrip(env, keys, ReadBack(Written(env, keys)));
    }
  }

  /**
   * For every map and every order of its keys, the file reads back as the map exactly when each key
   * is nonempty, trimmed, free of '=' and newlines and starts neither with '#' nor with "export ",
   * and each value has no newline and, where it would be written unquoted, no white space at its ends.
   */
  lemma RoundTrip(env: Env, keys: seq<string>)
    requires Lists(keys, env)
    ensures ReadBack(Written(env, keys)) == env <==> GoodEnv(env)
  {
    if !CleanEnv(env) {
      DirtyTrip(env, keys);
    } else {
      CleanKeysAreListed(env, keys);
      ListedTrip(env, keys);
    }
  }

  lemma OneKey(k: string, v: string)
    requires Trimmed(k) && k != ""
    ensures Lists([k], map[k := v])
  {
    TrimOfTrimmed(k);
  }

  /** A value with a line break does not come back. */
  lemma LineBreakLost()
    ensures ReadBack(Written(map["a" := "x\ny"], ["a"])) != map["a" := "x\ny"]
  {
    var v := "x\ny";
    assert v[1] == '\n' && !GoodValue(v);
    OneKey("a", v);
    RoundTrip(map["a" := v], ["a"]);
    assert !GoodEnv(map["a" := v]);
  }

  /** Neither does a key that reads as a comment. */
  lemma CommentKeyLost()
    ensures ReadBack(Written(map["#a" := "x"], ["#a"])) != map["#a" := "x"]
  {
    var k := "#a";
    assert k[..1] == "#" && !GoodKey(k);
    OneKey(k, "x");
    RoundTrip(map[k := "x"], [k]);
    assert !GoodEnv(map[k := "x"]);
  }
}
