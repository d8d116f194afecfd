/** The term compiler as the source runs it: counters and bind variables are updated in place. Every method
    is proved against its function in AqlTerms, so the freshness and meaning proved there are about it. */
module AqlCompiler {
  import opened Aql
  import opened AqlTerms
  import opened Options
  import opened Decimal

  class Compiler {
    const model: Model
    var counters: map<string, nat>
    var bindVars: Binds
    var raised: bool

    constructor (model: Model)
      ensures this.model == model && State() == Compiled(map[], map[], false) && Named(State())
    {
      this.model := model;
      counters, bindVars, raised := map[], map[], false;
    }

    function State(): Compiled
      reads this
    {
      Compiled(counters, bindVars, raised)
    }

    method NextCounter(name: string) returns (count: nat)
      modifies this`counters
      ensures count == Counter(old(counters), name) && counters == old(counters)[name := count + 1]
    {
      count := if name in counters then counters[name] else 0;
      counters := counters[name := count + 1];
    }

    /** next_bind_var_name; the caller assigns the variable. */
    method BindVar(v: Value) returns (name: string)
      requires Named(State())
      modifies this
      ensures (name, State()) == Bind(old(State()), v)
      ensures name !in old(bindVars) && Named(State()) && Extends(old(bindVars), bindVars)
    {
      BindFresh(State(), v);
      var n := NextCounter("bind_vars");
      name := "b" + Text(n);
      bindVars := bindVars[name := v];
    }

    /** `length = str(len(bind_vars))` in the functions of arangodb_functions.py. */
    method BindBySize(prefix: string, v: Value) returns (name: string)
      requires Named(State()) && (prefix == "fn" || prefix == "")
      modifies this`bindVars
      ensures (name, State()) == BindSized(prefix, v, old(State()))
      ensures name !in old(bindVars) && Named(State()) && Extends(old(bindVars), bindVars)
    {
      BindSizedFresh(prefix, v, State());
      name := prefix + Text(|bindVars|);
      bindVars := bindVars[name := v];
    }

    method PredicateTerm(path: string, op: Op, v: Value) returns (e: Expr)
      requires Named(State())
      modifies this
      ensures (e, State()) == CompilePredicate(model, path, op, v, old(State())) && Named(State())
    {
      hide Named, CoerceFor;
      var prop := Resolve(model, path);
      var op' := if prop.kind == Since then Flip(op) else op;
      var v' := CoerceFor(model, prop.kind, op', v);
      PredicateBinds(model, path, op, v, State());
      if v'.None? {
        raised := true;
        return Always;
      }
      var name := BindVar(v'.value);
      e := Compare(prop.stored, op', name);
      if MatchesNull(op') {
        e := Both(Present(prop.stored), e);
      }
    }

    method WithId(id: string) returns (e: Expr)
      requires Named(State())
      modifies this
      ensures (e, State()) == CompileTerm(model, IdTerm(id), old(State())) && Named(State())
    {
      var name := BindVar(Str(id));
      e := KeyIs(name);
    }

    method IsKind(kinds: seq<string>) returns (e: Expr)
      requires Named(State())
      modifies this
      ensures (e, State()) == CompileTerm(model, IsTerm(kinds), old(State())) && Named(State())
    {
      hide Named, Bind;
      var names: seq<string>, i := [], 0;
      BindKindsGrows(model, kinds, State());
      assert kinds[0..] == kinds && names + BindKinds(model, kinds, State()).0 == BindKinds(model, kinds, State()).0;
      while i < |kinds|
        invariant 0 <= i <= |kinds| && Named(State())
        invariant var (rest, s) := BindKinds(model, kinds[i..], State());
                  (names + rest, s) == BindKinds(model, kinds, old(State()))
      {
        assert kinds[i..] == [kinds[i]] + kinds[i + 1..];
        if kinds[i] !in model.kinds {
          raised := true;
          assert names + [] == names;
          return AnyKind(names);
        }
        var name := BindVar(Str(kinds[i]));
        assert forall rest: seq<string> :: names + ([name] + rest) == (names + [name]) + rest;
        names, i := names + [name], i + 1;
      }
      assert names + [] == names;
      e := AnyKind(names);
    }

    method HasKeyTerm(path: string, args: seq<FnArg>) returns (e: Expr)
      requires Named(State())
      modifies this
      ensures (e, State()) == CompileHasKey(path, args, old(State())) && Named(State())
    {
      hide Named;
      HasKeyBinds(path, args, State());
      if |args| != 1 {
        raised := true;
        return Always;
      }
      if args[0].One? {
        var name := BindBySize("fn", Str(args[0].s));
        return HasKey(path, name);
      }
      if args[0].ss == [] {
        return Always;
      }
      var name := BindBySize("fn", List(Strings(args[0].ss)));
      e := if |args[0].ss| == 1 then HasKey(path, name) else HasAll(path, name);
    }

    method InSubnetTerm(path: string, args: seq<FnArg>) returns (e: Expr)
      requires Named(State())
      modifies this
      ensures (e, State()) == CompileInSubnet(model, path, args, old(State())) && Named(State())
    {
      hide Named, BitAnd, Mask;
      InSubnetBinds(model, path, args, State());
      if |args| != 1 || args[0].Many? || !IsNetwork(model.network(args[0].s)) {
        raised := true;
        return Always;
      }
      var (address, prefix) := model.network(args[0].s).value;
      var mask := Mask(prefix);
      var expected := BitAnd(BitAnd(address, mask), mask);
      var name := BindBySize("", Number(expected));
      e := InNet(path, mask, name);
    }

    /** `term`: compiling a whole term tree leaves exactly the state and the expression that AqlTerms
        reasons about. */
    method TermFilter(t: Term) returns (e: Expr)
      requires Named(State())
      modifies this
      ensures (e, State()) == CompileTerm(model, t, old(State())) && Named(State())
      decreases t
    {
      hide Named, CompilePredicate, CompileHasKey, CompileInSubnet;
      match t
      case AllTerm => e := Always;
      case Predicate(path, op, v) => e := PredicateTerm(path, op, v);
      case FunctionTerm(fn, path, args) =>
        if fn == "has_key" {
          e := HasKeyTerm(path, args);
        } else if fn == "in_subnet" {
          e := InSubnetTerm(path, args);
        } else if fn == "has_desired_change" {
          e := Both(Present("desired." + path), Differ("reported." + path, "desired." + path));
        } else {
          RaiseGrows(State());
          raised, e := true, Always;
        }
      case IdTerm(id) => e := WithId(id);
      case IsTerm(kinds) => e := IsKind(kinds);
      case NotTerm(x) =>
        e := TermFilter(x);
        e := No(e);
      case CombinedTerm(l, comb, r) =>
        var left := TermFilter(l);
        var right := TermFilter(r);
        e := if comb == And then Both(left, right) else Either(left, right);
    }
  }
}
