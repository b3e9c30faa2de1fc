/**
 * Merging environments and turning one into the sorted `KEY=VALUE` list that
 * a process receives.
 */
module Merge {
  import opened Wrappers
  import opened Text
  import opened Sorting

  type Env = map<string, string>

  /** `copyenv`: writes every entry of `src` over `dst`; the result is the updated `dst`. */
  method CopyEnv(src: Env, dst: Env) returns (out: Env)
    ensures out.Keys == dst.Keys + src.Keys
    ensures forall k :: k in src ==> out[k] == src[k]
    ensures forall k :: k in dst && k !in src ==> out[k] == dst[k]
  {
    out := dst;
    var left := src;
    while left.Keys != {}
      invariant left.Keys <= src.Keys
      invariant forall k :: k in left ==> left[k] == src[k]
      invariant out.Keys + left.Keys == dst.Keys + src.Keys
      invariant forall k :: k in src && k !in left ==> k in out && out[k] == src[k]
      invariant forall k :: k in dst && k !in src ==> out[k] == dst[k]
      decreases left.Keys
    {
      var k :| k in left.Keys;
      out := out[k := left[k]];
      left := left - {k};
    }
  }

  /** Reference definition of `Combine`: fold the maps left to right, later entries winning. */
  ghost function Merged(envs: seq<Env>): Env
  {
    if envs == [] then map[] else Merged(envs[..|envs| - 1]) + envs[|envs| - 1]
  }

  /** `Combine`: copies each map in order into one result. */
  method Combine(envs: seq<Env>) returns (c: Env)
    ensures forall k :: k in c <==> exists i :: 0 <= i < |envs| && k in envs[i]
    ensures forall k, i ::
      (0 <= i < |envs| && k in envs[i] && forall j :: i < j < |envs| ==> k !in envs[j]) ==> c[k] == envs[i][k]
  {
    c := map[];
    for i := 0 to |envs|
      invariant c == Merged(envs[..i])
    {
      assert envs[..i + 1][..i] == envs[..i];
      c := CopyEnv(envs[i], c);
    }
    assert envs[..|envs|] == envs;
    MergedDomain(envs);
    forall k, i | 0 <= i < |envs| && k in envs[i] && (forall j :: i < j < |envs| ==> k !in envs[j])
      ensures c[k] == envs[i][k]
    {
      MergedLastWriter(envs, k, i);
    }
  }

  /** The merged key set is the union of the inputs' key sets. */
  lemma {:induction false} MergedDomain(envs: seq<Env>)
    ensures forall k :: k in Merged(envs) <==> exists i :: 0 <= i < |envs| && k in envs[i]
  {
    if envs != [] {
      var front := envs[..|envs| - 1];
      MergedDomain(front);
      assert forall i :: 0 <= i < |front| ==> front[i] == envs[i];
    }
  }

  /** Each key takes its value from the last input that holds it. */
  lemma {:induction false} MergedLastWriter(envs: seq<Env>, k: string, i: nat)
    requires i < |envs| && k in envs[i]
    requires forall j :: i < j < |envs| ==> k !in envs[j]
    ensures k in Merged(envs) && Merged(envs)[k] == envs[i][k]
  {
    var n := |envs| - 1;
    if i < n {
      var front := envs[..n];
      assert front[i] == envs[i];
      MergedLastWriter(front, k, i);
    }
  }

  /** With two inputs the second wins on shared keys and the first fills in the rest. */
  lemma MergedPair(a: Env, b: Env)
    ensures Merged([a, b]).Keys == a.Keys + b.Keys
    ensures forall k :: k in b ==> Merged([a, b])[k] == b[k]
    ensures forall k :: k in a && k !in b ==> Merged([a, b])[k] == a[k]
  {
    assert [a, b][..1] == [a] && [a][..0] == [];
    assert Merged([a]) == map[] + a == a;
  }

  /** Merging is not commutative when keys collide (the `CI` key of TestCombine). */
  lemma MergedNotCommutative()
    ensures Merged([map["CI" := "true"], map["CI" := "false"]])
      != Merged([map["CI" := "false"], map["CI" := "true"]])
  {
    MergedPair(map["CI" := "true"], map["CI" := "false"]);
    MergedPair(map["CI" := "false"], map["CI" := "true"]);
    assert Merged([map["CI" := "true"], map["CI" := "false"]])["CI"] == "false";
    assert Merged([map["CI" := "false"], map["CI" := "true"]])["CI"] == "true";
  }

  /** One line of the serialised environment. */
  function Entry(key: string, value: string): string
  {
    key + "=" + value
  }

  /** The lines of an environment, one per key, as a multiset. */
  ghost function Entries(env: Env): multiset<string>
    decreases env.Keys
  {
    if env.Keys == {} then multiset{}
    else
      var k :| k in env.Keys;
      multiset{Entry(k, env[k])} + Entries(env - {k})
  }

  /** Entries does not depend on which key is taken first. */
  lemma {:induction false} EntriesRemove(env: Env, k: string)
    requires k in env
    ensures Entries(env) == multiset{Entry(k, env[k])} + Entries(env - {k})
    decreases env.Keys
  {
    var j :| j in env.Keys && Entries(env) == multiset{Entry(j, env[j])} + Entries(env - {j});
    if j != k {
      var ej, ek := env - {j}, env - {k};
      assert ej.Keys == env.Keys - {j} && ek.Keys == env.Keys - {k};
      assert k in ej && ej[k] == env[k] && j in ek && ek[j] == env[j];
      var both := ej - {k};
      assert both == ek - {j};
      EntriesRemove(ej, k);
      EntriesRemove(ek, j);
      var mj, mk := multiset{Entry(j, env[j])}, multiset{Entry(k, env[k])};
      calc {
        Entries(env);
        mj + Entries(ej);
        mj + (mk + Entries(both));
        mk + (mj + Entries(both));
        mk + Entries(ek);
      }
    }
  }

  lemma {:induction false} EntriesSize(env: Env)
    ensures |Entries(env)| == |env|
    decreases env.Keys
  {
    if env.Keys != {} {
      var k :| k in env.Keys;
      EntriesRemove(env, k);
      EntriesSize(env - {k});
      assert (env - {k}).Keys == env.Keys - {k};
    }
  }

  /** A line belongs to the serialisation iff it is `k=v` for some entry of the map. */
  lemma {:induction false} EntriesMembers(env: Env, line: string)
    ensures line in Entries(env) <==> exists k :: k in env && line == Entry(k, env[k])
    decreases env.Keys
  {
    if env.Keys != {} {
      var k :| k in env.Keys;
      var rest := env - {k};
      assert rest.Keys == env.Keys - {k};
      EntriesRemove(env, k);
      EntriesMembers(rest, line);
      assert forall k' :: k' in rest ==> rest[k'] == env[k'];
      if line in Entries(env) && line != Entry(k, env[k]) {
        var k' :| k' in rest && line == Entry(k', rest[k']);
        assert k' in env && line == Entry(k', env[k']);
      }
    }
  }

  /**
   * When no key contains `=`, cutting a line at its first `=` gives back the
   * key and its value, so the list determines the map.
   */
  lemma EntriesSplit(env: Env, line: string)
    requires forall k :: k in env ==> '=' !in k
    requires line in Entries(env)
    ensures Cut(line, '=').0 in env && Cut(line, '=').1 == Some(env[Cut(line, '=').0])
  {
    EntriesMembers(env, line);
    var k :| k in env && line == Entry(k, env[k]);
    CutAt(k, '=', env[k]);
  }

  /** A key holding `=` can make two different maps serialise alike. */
  lemma EntriesCollide()
    ensures Entries(map["a" := "b=c"]) == Entries(map["a=b" := "c"])
  {
    EntriesRemove(map["a" := "b=c"], "a");
    EntriesRemove(map["a=b" := "c"], "a=b");
    assert map["a" := "b=c"] - {"a"} == map[];
    assert map["a=b" := "c"] - {"a=b"} == map[];
    assert Entries(map[]) == multiset{};
    assert Entry("a", "b=c") == Entry("a=b", "c");
  }

  /** `Slice`: one `key=value` line per entry, then sorted. */
  method Slice(env: Env) returns (s: seq<string>)
    ensures Sorted(s)
    ensures |s| == |env|
    ensures multiset(s) == Entries(env)
  {
    s := [];
    var left := env;
    while left.Keys != {}
      invariant multiset(s) + Entries(left) == Entries(env)
      decreases left.Keys
    {
      var k :| k in left.Keys;
      EntriesRemove(left, k);
      s := s + [Entry(k, left[k])];
      left := left - {k};
    }
    s := SortStrings(s);
    EntriesSize(env);
  }
}
