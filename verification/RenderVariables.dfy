/** The loop of HandleRender that checks required variables and fills in defaults. */
module RenderVariables {
  import opened ApiServer

  datatype Variable = Variable(name: string, required: bool, default: string)

  /** `Panicked`: a default had to be written into the nil map that a request body without
      variables decodes to. */
  datatype Prepared = Missing(name: string) | Panicked | Ready(vars: map<string, string>)

  /** What reading a nil map gives. */
  function Entries(vars: Option<map<string, string>>): map<string, string> {
    if vars.Some? then vars.value else map[]
  }

  function Prepare(declared: seq<Variable>, vars: Option<map<string, string>>): Prepared {
    if declared == [] then Ready(Entries(vars))
    else
      var v := declared[0];
      if v.name in Entries(vars) then Prepare(declared[1..], vars)
      else if v.required then Missing(v.name)
      else if v.default == "" then Prepare(declared[1..], vars)
      else if vars.None? then Panicked
      else Prepare(declared[1..], Some(vars.value[v.name := v.default]))
  }

  method PrepareVariables(declared: seq<Variable>, supplied: Option<map<string, string>>) returns (r: Prepared)
    ensures r == Prepare(declared, supplied)
  {
    var vars := supplied;
    for i := 0 to |declared|
      invariant Prepare(declared, supplied) == Prepare(declared[i..], vars)
    {
      var v := declared[i];
      assert declared[i..][1..] == declared[i + 1..];
      if v.required {
        if v.name !in Entries(vars) {
          return Missing(v.name);
        }
      }
      if v.name !in Entries(vars) && v.default != "" {
        if vars.None? {
          return Panicked;
        }
        vars := Some(vars.value[v.name := v.default]);
      }
    }
    r := Ready(Entries(vars));
  }

  /** The API server keeps the declared names unique. */
  ghost predicate DistinctNames(declared: seq<Variable>) {
    forall i, j :: 0 <= i < j < |declared| ==> declared[i].name != declared[j].name
  }

  ghost predicate AllRequiredGiven(declared: seq<Variable>, given: map<string, string>) {
    forall v :: v in declared && v.required ==> v.name in given
  }

  predicate Fills(v: Variable, given: map<string, string>, name: string) {
    v.name == name && !v.required && v.default != "" && name !in given
  }

  /** `vars` is `given` plus the non-empty defaults of the optional names it lacks. */
  ghost predicate Completed(declared: seq<Variable>, given: map<string, string>, vars: map<string, string>) {
    && (forall k :: k in vars <==> k in given || exists v :: v in declared && Fills(v, given, k))
    && (forall k :: k in given ==> k in vars && vars[k] == given[k])
    && (forall v :: v in declared && Fills(v, given, v.name) ==> v.name in vars && vars[v.name] == v.default)
  }

  lemma Cons(declared: seq<Variable>)
    requires declared != [] && DistinctNames(declared)
    ensures DistinctNames(declared[1..])
    ensures forall v :: v in declared <==> v == declared[0] || v in declared[1..]
    ensures forall v :: v in declared[1..] ==> v.name != declared[0].name
  {
    assert declared == [declared[0]] + declared[1..];
    forall v | v in declared[1..] ensures v.name != declared[0].name {
      var i :| 0 <= i < |declared[1..]| && declared[1..][i] == v;
      assert declared[i + 1] == v;
    }
  }

  lemma CompletedCons(declared: seq<Variable>, given: map<string, string>, vars: map<string, string>)
    requires declared != [] && DistinctNames(declared)
    requires var v := declared[0];
             Completed(declared[1..], if Fills(v, given, v.name) then given[v.name := v.default] else given, vars)
    ensures Completed(declared, given, vars)
  {
    Cons(declared);
    var v := declared[0];
    var given' := if Fills(v, given, v.name) then given[v.name := v.default] else given;
    forall k ensures k in vars <==> k in given || exists w :: w in declared && Fills(w, given, k) {
      if w :| w in declared[1..] && Fills(w, given', k) {
        assert w in declared && Fills(w, given, k);
      }
      if w :| w in declared && Fills(w, given, k) {
        assert w == v || (w in declared[1..] && Fills(w, given', k));
      }
    }
    forall w | w in declared && Fills(w, given, w.name) ensures w.name in vars && vars[w.name] == w.default {
      assert w == v || (w in declared[1..] && Fills(w, given', w.name));
    }
  }

  /** With a map to write to, the loop accepts exactly when every required name was supplied,
      and then leaves the supplied entries plus the defaults of the absent optional names. */
  lemma {:induction false} PreparedExactly(declared: seq<Variable>, given: map<string, string>)
    requires DistinctNames(declared)
    ensures var r := Prepare(declared, Some(given));
            && !r.Panicked?
            && (r.Ready? <==> AllRequiredGiven(declared, given))
            && (r.Ready? ==> Completed(declared, given, r.vars))
            && (r.Missing? ==> r.name !in given && exists v :: v in declared && v.required && v.name == r.name)
  {
    if declared != [] {
      Cons(declared);
      var v := declared[0];
      var given' := if Fills(v, given, v.name) then given[v.name := v.default] else given;
      PreparedExactly(declared[1..], given');
      var r := Prepare(declared, Some(given));
      if r.Ready? {
        CompletedCons(declared, given, r.vars);
      }
      if v.name !in given && v.required {
        assert v in declared && v.required && v.name == r.name;
      } else {
        assert AllRequiredGiven(declared, given) <==> AllRequiredGiven(declared[1..], given');
      }
    }
  }

  lemma CompletedIsUnique(declared: seq<Variable>, given: map<string, string>, a: map<string, string>,
                          b: map<string, string>)
    requires Completed(declared, given, a) && Completed(declared, given, b)
    ensures a == b
  {
    assert a.Keys == b.Keys;
    forall k | k in a ensures a[k] == b[k] {
      if k !in given {
        var v :| v in declared && Fills(v, given, k);
      }
    }
  }

  /** The order of the declarations does not matter, for the decision or for the result. */
  lemma OrderIrrelevant(declared: seq<Variable>, permuted: seq<Variable>, given: map<string, string>)
    requires DistinctNames(declared) && DistinctNames(permuted)
    requires multiset(declared) == multiset(permuted)
    ensures var r, r' := Prepare(declared, Some(given)), Prepare(permuted, Some(given));
            (r.Ready? <==> r'.Ready?) && (r.Ready? ==> r == r')
  {
    forall v ensures v in declared <==> v in permuted {
      assert v in declared <==> v in multiset(declared);
      assert v in permuted <==> v in multiset(permuted);
    }
    PreparedExactly(declared, given);
    PreparedExactly(permuted, given);
    var r, r' := Prepare(declared, Some(given)), Prepare(permuted, Some(given));
    if r.Ready? {
      assert Completed(declared, given, r'.vars);
      CompletedIsUnique(declared, given, r.vars, r'.vars);
    }
  }

  /** The `i`-th name has a default to be written, and none before it is required. */
  ghost predicate WritesDefaultAt(declared: seq<Variable>, i: nat) {
    && i < |declared| && !declared[i].required && declared[i].default != ""
    && forall j :: 0 <= j < i ==> !declared[j].required
  }

  /** Without a map, the loop panics exactly when a default has to be written before any
      required name is found missing; here the order does matter. */
  lemma {:induction false} NilMapPanics(declared: seq<Variable>)
    ensures Prepare(declared, None).Panicked? <==> exists i :: WritesDefaultAt(declared, i)
  {
    if declared != [] {
      var v, rest := declared[0], declared[1..];
      NilMapPanics(rest);
      assert forall j :: 0 <= j < |rest| ==> rest[j] == declared[j + 1];
      if !v.required && v.default == "" {
        if i: nat :| WritesDefaultAt(rest, i) {
          assert WritesDefaultAt(declared, i + 1) by {
            assert forall j :: 1 <= j < i + 1 ==> declared[j] == rest[j - 1];
          }
        }
        if i: nat :| WritesDefaultAt(declared, i) {
          assert WritesDefaultAt(rest, i - 1);
        }
      } else if !v.required {
        assert WritesDefaultAt(declared, 0);
      }
    }
  }

  /** Without a map, only declarations that ask for nothing are accepted. */
  lemma {:induction false} NilMapAccepts(declared: seq<Variable>)
    ensures Prepare(declared, None).Ready? <==> forall v :: v in declared ==> !v.required && v.default == ""
    ensures Prepare(declared, None).Ready? ==> Prepare(declared, None).vars == map[]
  {
    if declared != [] {
      NilMapAccepts(declared[1..]);
      assert declared == [declared[0]] + declared[1..];
    }
  }

  lemma {:induction false} NilMapMisses(declared: seq<Variable>)
    ensures Prepare(declared, None).Missing? ==> exists v :: v in declared && v.required
  {
    if declared != [] {
      NilMapMisses(declared[1..]);
      assert declared == [declared[0]] + declared[1..];
      assert declared[0] in declared;
    }
  }

  /** The outcome for any request body, with a map or without. */
  lemma PreparedEither(declared: seq<Variable>, supplied: Option<map<string, string>>)
    requires DistinctNames(declared)
    ensures var r := Prepare(declared, supplied);
            && (r.Panicked? <==> supplied.None? && exists i :: WritesDefaultAt(declared, i))
            && (r.Missing? ==> !AllRequiredGiven(declared, Entries(supplied)))
            && (r.Ready? ==>
                  AllRequiredGiven(declared, Entries(supplied)) && Completed(declared, Entries(supplied), r.vars))
  {
    if supplied.Some? {
      PreparedExactly(declared, supplied.value);
    } else {
      NilMapPanics(declared);
      NilMapMisses(declared);
      NilMapAccepts(declared);
    }
  }
}
