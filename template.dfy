/**
 * The endpoint templates of the API classes and Python's `str.format` on
 * them with keyword arguments: literal text and `{name}` placeholders, each
 * placeholder replaced verbatim by its argument.
 */
module Template {
  import opened Wrappers

  /** A piece of a template: literal text or a `{name}` placeholder. */
  datatype Segment = Lit(text: string) | Hole(name: string)

  /** The names of the placeholders. */
  function Holes(t: seq<Segment>): set<string>
  {
    set i | 0 <= i < |t| && t[i].Hole? :: t[i].name
  }

  /** `t.format(**env)`: `None` when a placeholder has no argument (the
      `KeyError` `str.format` raises); arguments without a placeholder are
      ignored. */
  function Render(t: seq<Segment>, env: map<string, string>): (r: Option<string>)
    ensures r.Some? <==> Holes(t) <= env.Keys
  {
    if t == [] then Some("")
    else
      var head := if t[0].Lit? then Some(t[0].text) else if t[0].name in env then Some(env[t[0].name]) else None;
      var rest := Render(t[1..], env);
      assert Holes(t) == Holes(t[..1]) + Holes(t[1..]) by {
        HolesSplit(t, 1);
      }
      if head.Some? && rest.Some? then Some(head.value + rest.value) else None
  }

  lemma HolesSplit(t: seq<Segment>, k: nat)
    requires k <= |t|
    ensures Holes(t) == Holes(t[..k]) + Holes(t[k..])
  {
    forall n | n in Holes(t)
      ensures n in Holes(t[..k]) + Holes(t[k..])
    {
      var i :| 0 <= i < |t| && t[i].Hole? && t[i].name == n;
      if i < k {
        assert t[..k][i] == t[i];
      } else {
        assert t[k..][i - k] == t[i];
      }
    }
    forall n | n in Holes(t[..k]) + Holes(t[k..])
      ensures n in Holes(t)
    {
      if n in Holes(t[..k]) {
        var i :| 0 <= i < k && t[..k][i].Hole? && t[..k][i].name == n;
        assert t[i] == t[..k][i];
      } else {
        var i :| 0 <= i < |t| - k && t[k..][i].Hole? && t[k..][i].name == n;
        assert t[i + k] == t[k..][i];
      }
    }
  }

  // ------------------------------------------------------------- properties

  /** A template whose placeholders are all among `names`. */
  lemma HolesAmong(t: seq<Segment>, names: set<string>)
    requires forall i :: 0 <= i < |t| && t[i].Hole? ==> t[i].name in names
    ensures Holes(t) <= names
  {
  }


  /** Only the arguments of the template's own placeholders matter. */
  lemma {:induction false} UnusedArgumentsIgnored(t: seq<Segment>, e1: map<string, string>, e2: map<string, string>)
    requires forall n :: n in Holes(t) ==> (n in e1 <==> n in e2) && (n in e1 ==> e1[n] == e2[n])
    ensures Render(t, e1) == Render(t, e2)
    decreases |t|
  {
    if t != [] {
      HolesSplit(t, 1);
      if t[0].Hole? {
        assert t[0].name in Holes(t[..1]);
      }
      UnusedArgumentsIgnored(t[1..], e1, e2);
    }
  }

  /** Rendering works piece by piece: a template made of two parts renders
      to the two renderings one after the other. */
  lemma {:induction false} RenderAppend(t1: seq<Segment>, t2: seq<Segment>, env: map<string, string>)
    requires Holes(t1) <= env.Keys && Holes(t2) <= env.Keys
    ensures Holes(t1 + t2) <= env.Keys
    ensures Render(t1 + t2, env).value == Render(t1, env).value + Render(t2, env).value
    decreases |t1|
  {
    HolesAppend(t1, t2);
    if t1 == [] {
      assert t1 + t2 == t2;
      assert Render(t1, env).value == "";
    } else {
      HolesSplit(t1, 1);
      assert (t1 + t2)[0] == t1[0];
      assert (t1 + t2)[1..] == t1[1..] + t2;
      RenderAppend(t1[1..], t2, env);
    }
  }

  lemma HolesAppend(t1: seq<Segment>, t2: seq<Segment>)
    ensures Holes(t1 + t2) == Holes(t1) + Holes(t2)
  {
    HolesSplit(t1 + t2, |t1|);
    assert (t1 + t2)[..|t1|] == t1 && (t1 + t2)[|t1|..] == t2;
  }

  /** A placeholder is replaced by its argument as it is, whatever the
      argument holds (braces and slashes included). */
  lemma RenderHole(name: string, env: map<string, string>)
    requires name in env
    ensures Render([Hole(name)], env) == Some(env[name])
  {
    assert [Hole(name)][1..] == [];
    assert Render([], env) == Some("");
    assert env[name] + "" == env[name];
  }

  lemma RenderLit(text: string, env: map<string, string>)
    ensures Render([Lit(text)], env) == Some(text)
  {
    assert [Lit(text)][1..] == [];
    assert Render([], env) == Some("");
    assert text + "" == text;
  }

  /** A two-segment template renders to its two pieces. */
  lemma RenderPair(a: Segment, b: Segment, env: map<string, string>)
    requires a.Hole? ==> a.name in env
    requires b.Hole? ==> b.name in env
    ensures Holes([a, b]) <= env.Keys
    ensures Render([a, b], env).value == Piece(a, env) + Piece(b, env)
  {
    RenderOne(a, env);
    RenderOne(b, env);
    HolesSplit([a, b], 1);
    assert [a, b][..1] == [a] && [a, b][1..] == [b];
    assert [a] + [b] == [a, b];
    RenderAppend([a], [b], env);
  }

  function Piece(s: Segment, env: map<string, string>): string
    requires s.Hole? ==> s.name in env
  {
    if s.Lit? then s.text else env[s.name]
  }

  lemma RenderOne(s: Segment, env: map<string, string>)
    requires s.Hole? ==> s.name in env
    ensures Holes([s]) <= env.Keys
    ensures Render([s], env) == Some(Piece(s, env))
  {
    if s.Lit? {
      RenderLit(s.text, env);
    } else {
      RenderHole(s.name, env);
    }
  }

  /** Regrouping the pieces of a rendering that was built from the right. */
  lemma Regroup(a: string, b: string, c: string, d: string, e: string, f: string, g: string)
    ensures (a + b) + ((c + d) + ((e + f) + g)) == a + b + c + d + e + f + g
  {
  }
}
