/** The .env writer as it is written: collect the keys, sort them, append line by line. */
module DotEnvWrite {
  import opened Seqs
  import opened Text
  import opened DotEnv
  import opened ReleaseNames

  ghost predicate Ascending(keys: seq<string>) {
    forall i, j :: 0 <= i < j < |keys| ==> !Lt(keys[j], keys[i])
  }

  function Insert(keys: seq<string>, k: string): (r: seq<string>)
    ensures forall x :: x in r <==> x == k || x in keys
  {
    if keys == [] || Lt(k, keys[0]) then [k] + keys
    else
      assert keys == [keys[0]] + keys[1..];
      [keys[0]] + Insert(keys[1..], k)
  }

  lemma AscendingCons(k: string, keys: seq<string>)
    requires Ascending(keys) && forall x :: x in keys ==> !Lt(x, k)
    ensures Ascending([k] + keys)
  {
  }

  lemma {:induction false} InsertSorts(keys: seq<string>, k: string)
    requires Ascending(keys)
    ensures Ascending(Insert(keys, k))
  {
    if keys == [] {
    } else if Lt(k, keys[0]) {
      forall x | x in keys ensures !Lt(x, k) {
        LtOrders(k, keys[0]);
        if Lt(x, k) {
          LtTransitive(x, k, keys[0]);
        }
      }
      AscendingCons(k, keys);
    } else {
      InsertSorts(keys[1..], k);
      LtOrders(keys[0], keys[0]);
      AscendingCons(keys[0], Insert(keys[1..], k));
    }
  }

  /** The keys listed so far: those of the names gone through. */
  ghost predicate ListsBut(keys: seq<string>, env: Env, rest: set<string>) {
    && (forall raw :: raw in env && raw !in rest && Trim(raw) != "" ==> Trim(raw) in keys)
    && (forall k :: k in keys ==> k != "" && exists raw :: raw in env && Trim(raw) == k)
  }

  lemma ListOne(keys: seq<string>, more: seq<string>, env: Env, rest: set<string>, raw: string)
    requires ListsBut(keys, env, rest) && raw in env
    requires if Trim(raw) == "" then more == keys else forall x :: x in more <==> x == Trim(raw) || x in keys
    ensures ListsBut(more, env, rest - {raw})
  {
  }

  /** The trimmed nonempty keys, sorted. */
  method SortedKeys(env: Env) returns (keys: seq<string>)
    ensures Lists(keys, env) && Ascending(keys)
  {
    keys := [];
    var rest := env.Keys;
    while rest != {}
      invariant rest <= env.Keys && Ascending(keys) && ListsBut(keys, env, rest)
      decreases |rest|
    {
      var raw :| raw in rest;
      var k := Trim(raw);
      ghost var before := keys;
      if k != "" {
        InsertSorts(keys, k);
        keys := Insert(keys, k);
      }
      ListOne(before, keys, env, rest, raw);
      rest := rest - {raw};
    }
  }

  /** Writes nothing when there is no key to write. */
  method WriteDotEnvFile(env: Env) returns (file: Option<string>, keys: seq<string>)
    ensures Lists(keys, env) && Ascending(keys) && file == Written(env, keys)
  {
    keys := SortedKeys(env);
    if keys == [] {
      return None, keys;
    }
    var text := Header + "\n";
    for i := 0 to |keys|
      invariant text + Body(env, keys[i..]) == Header + "\n" + Body(env, keys)
    {
      AppendLine(text, env, keys[i..]);
      assert keys[i..][1..] == keys[i + 1..];
      text := text + Line(env, keys[i]) + "\n";
    }
    assert text + Body(env, []) == text;
    return Some(text), keys;
  }

  lemma AppendLine(text: string, env: Env, keys: seq<string>)
    requires keys != []
    ensures text + Body(env, keys) == text + Line(env, keys[0]) + "\n" + Body(env, keys[1..])
  {
    Append3(text, Line(env, keys[0]), "\n", Body(env, keys[1..]));
  }

  lemma Append3(a: string, b: string, c: string, d: string)
    ensures a + (b + c + d) == a + b + c + d
  {
  }
}
