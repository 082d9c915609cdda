/** Environment entries by the name in front of their first `=`, said of the texts themselves. */
module Environment {
  import opened Basics
  import opened Specs
  import opened Ordering
  import opened LastWriter
  import opened Composition
  import opened CompositionLaws
  import opened ConflictReports
  import opened CompositionTheorems
  import opened ComposedStack

  /** The entry sets this name: it is the name alone, or the name, `=` and any value. */
  predicate Names(name: string, entry: string) { '=' !in name && (entry == name || name + "=" <= entry) }

  lemma {:induction false} KeyIsName(name: string, value: string)
    requires '=' !in name
    ensures EnvKey(name + "=" + value) == name && EnvKey(name) == name
  {
    if name == "" {
      assert ("" + "=" + value)[0] == '=';
    } else {
      assert name[0] in name && '=' !in name[1..];
      KeyIsName(name[1..], value);
      assert (name + "=" + value)[1..] == name[1..] + "=" + value;
    }
  }

  lemma {:induction false} KeyNames(entry: string)
    ensures Names(EnvKey(entry), entry)
  {
    if entry != "" && entry[0] != '=' {
      KeyNames(entry[1..]);
      assert entry == [entry[0]] + entry[1..];
      var key := EnvKey(entry[1..]);
      assert [entry[0]] + key + "=" == [entry[0]] + (key + "=");
    }
  }

  /** Every entry sets exactly one name. */
  lemma {:induction false} NamesIff(name: string, entry: string)
    ensures Names(name, entry) <==> EnvKey(entry) == name
  {
    KeyNames(entry);
    if Names(name, entry) {
      if entry != name {
        var value := entry[|name| + 1..];
        assert entry == name + "=" + value;
        KeyIsName(name, value);
      } else {
        KeyIsName(name, "");
      }
    }
  }

  // ----- the environment written down -----

  /** All entries of the parts, in order. */
  function Declared(parts: seq<Sourced>): seq<string> {
    if parts == [] then [] else parts[0].part.env + Declared(parts[1..])
  }

  /** The last of the entries to set the name. */
  ghost predicate LastToName(entries: seq<string>, name: string, entry: string) {
    exists i :: 0 <= i < |entries| && entries[i] == entry && Names(name, entry) && forall j :: i < j < |entries| ==> !Names(name, entries[j])
  }

  lemma {:induction false} EntriesConcat(a: seq<string>, b: seq<string>)
    ensures EnvEntries(a + b) == EnvEntries(a) + EnvEntries(b)
  {
  }

  lemma {:induction false} GatheredEnv(parts: seq<Sourced>)
    ensures Gather(EnvE, parts) == EnvEntries(Declared(parts))
  {
    if parts != [] {
      GatheredEnv(parts[1..]);
      EntriesConcat(parts[0].part.env, Declared(parts[1..]));
    }
  }

  lemma {:induction false} LastToNameIff(entries: seq<string>, name: string, entry: string)
    ensures LastToName(entries, name, entry) <==> EnvKey(entry) == name && LastOfKey(EnvEntries(entries), Entry(name, entry))
  {
    var es := EnvEntries(entries);
    forall i | 0 <= i < |entries| ensures Names(name, entries[i]) <==> es[i].key == name {
      NamesIff(name, entries[i]);
    }
    NamesIff(name, entry);
    if LastToName(entries, name, entry) {
      var i :| 0 <= i < |entries| && entries[i] == entry && Names(name, entry) && forall j :: i < j < |entries| ==> !Names(name, entries[j]);
      assert es[i] == Entry(name, entry);
    }
    if EnvKey(entry) == name && LastOfKey(es, Entry(name, entry)) {
      var i :| 0 <= i < |es| && es[i] == Entry(name, entry) && forall j :: i < j < |es| ==> es[j].key != name;
      assert entries[i] == entry;
    }
  }

  /** For every name the last entry to set it and nothing else, in strict order of names, so no name is set twice. */
  ghost predicate LastEntries(declared: seq<string>, env: seq<string>) {
    && (forall entry :: entry in env <==> exists name :: LastToName(declared, name, entry))
    && (forall i, j, m, n :: 0 <= i < j < |env| && Names(m, env[i]) && Names(n, env[j]) ==> StrLe(m, n) && m != n)
  }

  lemma {:induction false} MembersAreLast(declared: seq<string>, env: seq<string>, entry: string)
    requires LastOfEach(StrLe, EnvKey, EnvEntries(declared), env)
    ensures entry in env <==> exists name :: LastToName(declared, name, entry)
  {
    LastToNameIff(declared, EnvKey(entry), entry);
    if name :| LastToName(declared, name, entry) {
      LastToNameIff(declared, name, entry);
    }
  }

  lemma {:induction false} EnvOfEntries(declared: seq<string>, env: seq<string>)
    requires LastOfEach(StrLe, EnvKey, EnvEntries(declared), env)
    ensures LastEntries(declared, env)
  {
    forall entry ensures entry in env <==> exists name :: LastToName(declared, name, entry) {
      MembersAreLast(declared, env, entry);
    }
    forall i, j, m, n | 0 <= i < j < |env| && Names(m, env[i]) && Names(n, env[j]) ensures StrLe(m, n) && m != n {
      NamesIff(m, env[i]);
      NamesIff(n, env[j]);
    }
  }

  /** What `compose_stack` makes of the entries of all layers and the recipe, in order of their names. */
  lemma {:induction false} ComposedEnv(lib: Pep440, recipe: Recipe, layers: seq<Layer>)
    requires ValidSpecs(recipe, layers) && Compose(lib, recipe, layers).Ok?
    ensures LastEntries(Declared(PartsOf(recipe, layers)), Compose(lib, recipe, layers).value.env)
  {
    ComposedStackIs(lib, recipe, layers);
    GatheredEnv(PartsOf(recipe, layers));
    EnvOfEntries(Declared(PartsOf(recipe, layers)), Compose(lib, recipe, layers).value.env);
  }

  lemma {:induction false} EntryOf(declared: seq<string>, e: Entry<string, string>)
    ensures e in EnvEntries(declared) <==> e.value in declared && e.key == EnvKey(e.value)
  {
    if e.value in declared && e.key == EnvKey(e.value) {
      var i :| 0 <= i < |declared| && declared[i] == e.value;
      assert EnvEntries(declared)[i] == e;
    }
  }

  lemma {:induction false} AgreeOnNames(declared: seq<string>)
    ensures Agree(EnvEntries(declared)) <==>
      forall name, a, b :: a in declared && b in declared && Names(name, a) && Names(name, b) ==> a == b
  {
    var es := EnvEntries(declared);
    if Agree(es) {
      forall name, a, b | a in declared && b in declared && Names(name, a) && Names(name, b) ensures a == b {
        NamesIff(name, a);
        NamesIff(name, b);
        EntryOf(declared, Entry(name, a));
        EntryOf(declared, Entry(name, b));
        assert Entry(name, a) in es && Entry(name, b) in es;
      }
    }
    if forall name, a, b :: a in declared && b in declared && Names(name, a) && Names(name, b) ==> a == b {
      forall x, y | x in es && y in es && x.key == y.key ensures x.value == y.value {
        EntryOf(declared, x);
        EntryOf(declared, y);
        NamesIff(x.key, x.value);
        NamesIff(y.key, y.value);
      }
    }
  }

  /** The runtime report has an env entry exactly when two differing entries set one name. */
  lemma {:induction false} EnvReportedIff(recipe: Recipe, layers: seq<Layer>)
    ensures Mentions(AnalyzeRuntime(recipe, layers), Env) <==>
      exists name, a, b :: a in Declared(PartsOf(recipe, layers)) && b in Declared(PartsOf(recipe, layers)) && Names(name, a) && Names(name, b) && a != b
  {
    var parts := PartsOf(recipe, layers);
    PushRuntimesOutcome(NoRuntime, parts);
    assert SeenEnv(NoRuntime.env) == map[] && !Mentions([], Env);
    SteadyIffAgree<string, string>(map[], Gather(EnvE, parts));
    GatheredEnv(parts);
    AgreeOnNames(Declared(parts));
  }
}
