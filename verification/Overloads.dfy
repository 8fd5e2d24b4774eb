/**
 Which definition of a function a call means: the one whose parameter types are those of the
 arguments or else, if an argument can stand for several types, one found among all definitions.
 */
module Overloads {
  import opened Common

  datatype ValueType = Boolean | Integer | Numeric | String | Null | Date | Time | TimeTz | Timestamp | TimestampTz

  /** A definition: its parameter types, and the M function that it stands for. */
  datatype Definition = Definition(params: seq<ValueType>, extrinsic: string)

  /** The definitions under one name, by the types from which their hash is made. */
  type Registry = map<seq<ValueType>, Definition>

  ghost predicate Consistent(registry: Registry) {
    forall key <- registry :: registry[key].params == key
  }

  /** The order in which the database gives out the hashes. */
  ghost predicate Order(registry: Registry, order: seq<seq<ValueType>>) {
    forall key :: key in registry <==> key in order
  }

  /** NULL goes with every type, an integer with integers and numbers, any other type with itself. */
  predicate Fits(param: ValueType, arg: ValueType) {
    arg.Null? || param == arg || (arg.Integer? && param.Numeric?)
  }

  predicate Accepts(params: seq<ValueType>, args: seq<ValueType>) {
    |params| == |args| && forall i :: 0 <= i < |args| ==> Fits(params[i], args[i])
  }

  predicate Ambiguous(args: seq<ValueType>) {
    exists i :: 0 <= i < |args| && (args[i].Null? || args[i].Integer?)
  }

  /** The types from which a call makes its hash: NULL counts as a string. */
  function Exact(args: seq<ValueType>): seq<ValueType> {
    seq(|args|, i requires 0 <= i < |args| => if args[i].Null? then String else args[i])
  }

  /** The M functions that the call could mean. */
  ghost function Candidates(registry: Registry, args: seq<ValueType>): set<string> {
    set key | key in registry && Accepts(registry[key].params, args) :: registry[key].extrinsic
  }

  /** As `Candidates`, for the definitions that come first in an order. */
  ghost function Seen(registry: Registry, args: seq<ValueType>, order: seq<seq<ValueType>>): set<string> {
    set key | key in order && key in registry && Accepts(registry[key].params, args) :: registry[key].extrinsic
  }

  /** The types of parameters that an argument goes with. */
  lemma FitsExactly(param: ValueType, arg: ValueType)
    ensures Fits(param, arg) <==>
              match arg {
                case Null => true
                case Integer => param in {Integer, Numeric}
                case _ => param in {arg}
              }
  {
  }

  /** A call looks for its own types, with a string for each NULL; an argument always goes with what is
      looked for. */
  lemma ExactAt(args: seq<ValueType>, i: nat)
    requires i < |args|
    ensures |Exact(args)| == |args| && Fits(Exact(args)[i], args[i])
    ensures if args[i].Null? then Exact(args)[i].String? else Exact(args)[i] == args[i]
  {
  }

  lemma ExactFits(registry: Registry, args: seq<ValueType>)
    requires Consistent(registry)
    ensures Exact(args) in registry ==> Accepts(registry[Exact(args)].params, args)
  {
  }

  /** Without an ambiguous argument there is nothing to look for beyond the exact definition. */
  lemma OnlyExact(registry: Registry, args: seq<ValueType>)
    requires Consistent(registry) && !Ambiguous(args)
    ensures Exact(args) == args
    ensures Candidates(registry, args) == if args in registry then {registry[args].extrinsic} else {}
  {
    assert Exact(args) == args;
    forall key | key in registry && Accepts(registry[key].params, args) ensures key == args {
      forall i | 0 <= i < |args| ensures key[i] == args[i] {
        assert Fits(key[i], args[i]);
      }
    }
    if args in registry {
      assert Accepts(registry[args].params, args);
    }
  }

  lemma SeenOne(registry: Registry, args: seq<ValueType>, order: seq<seq<ValueType>>, k: nat)
    requires k < |order| && order[k] in registry
    ensures Seen(registry, args, order[..k + 1])
         == Seen(registry, args, order[..k])
            + if Accepts(registry[order[k]].params, args) then {registry[order[k]].extrinsic} else {}
  {
    var a, b := Seen(registry, args, order[..k + 1]), Seen(registry, args, order[..k]);
    assert order[..k + 1] == order[..k] + [order[k]];
    forall x | x in b ensures x in a {
      var key :| key in order[..k] && key in registry && Accepts(registry[key].params, args)
          && registry[key].extrinsic == x;
      assert key in order[..k + 1];
    }
    if Accepts(registry[order[k]].params, args) {
      assert order[k] in order[..k + 1];
    }
  }

  lemma SeenNone(registry: Registry, args: seq<ValueType>)
    ensures Seen(registry, args, []) == {}
  {
  }

  lemma SeenAll(registry: Registry, args: seq<ValueType>, order: seq<seq<ValueType>>)
    requires Order(registry, order)
    ensures Seen(registry, args, order) == Candidates(registry, args)
  {
  }

  lemma TwoSeen(registry: Registry, args: seq<ValueType>, a: Definition, b: Definition)
    requires a in registry.Values && b in registry.Values && Accepts(a.params, args) && Accepts(b.params, args)
        && a.extrinsic != b.extrinsic
    ensures |Candidates(registry, args)| >= 2
  {
    var s := Candidates(registry, args);
    assert a.extrinsic in s && b.extrinsic in s;
    assert {a.extrinsic, b.extrinsic} <= s;
    assert s == {a.extrinsic, b.extrinsic} + (s - {a.extrinsic, b.extrinsic});
  }

  /** The walk over the parameter types of one definition. */
  method ParametersMatch(params: seq<ValueType>, args: seq<ValueType>) returns (accepted: bool)
    requires args != []
    ensures accepted <==> Accepts(params, args)
  {
    if params == [] {
      return false;
    }
    var n := 0;
    while true
      invariant n < |params| && n <= |args| && forall i :: 0 <= i < n ==> Fits(params[i], args[i])
      decreases |params| - n
    {
      if n >= |args| {
        return false;
      }
      accepted := match args[n] {
        case Null => true
        case Integer => params[n].Integer? || params[n].Numeric?
        case _ => args[n] == params[n]
      };
      if !accepted {
        return false;
      }
      n := n + 1;
      if n == |params| {
        break;
      }
    }
    return n == |args|;
  }

  /** How many different M functions the call could mean, up to two, whatever the order of the
      definitions; a definition with exactly the types of the call goes before all others. */
  method Resolve(registry: Registry, order: seq<seq<ValueType>>, args: seq<ValueType>) returns (matches: nat,
      best: Option<Definition>)
    requires Consistent(registry) && Order(registry, order)
    ensures Exact(args) in registry ==> matches == 1 && best == Some(registry[Exact(args)])
    ensures Exact(args) !in registry ==>
              matches == if |Candidates(registry, args)| < 2 then |Candidates(registry, args)| else 2
    ensures best.Some? <==> matches > 0
    ensures best.Some? ==> best.value in registry.Values && Accepts(best.value.params, args)
    ensures matches == 1 && Exact(args) !in registry ==> Candidates(registry, args) == {best.value.extrinsic}
  {
    hide Accepts, Exact, Seen, Candidates;
    matches, best := 0, None;
    SeenNone(registry, args);
    if Exact(args) in registry {
      ExactFits(registry, args);
      return 1, Some(registry[Exact(args)]);
    }
    if !Ambiguous(args) {
      OnlyExact(registry, args);
      return;
    }
    var k := 0;
    while k < |order|
      invariant k <= |order| && matches <= 1 && (best.Some? <==> matches == 1)
      invariant Seen(registry, args, order[..k]) == if best.Some? then {best.value.extrinsic} else {}
      invariant best.Some? ==> best.value in registry.Values && Accepts(best.value.params, args)
    {
      assert order[k] in registry;
      var d := registry[order[k]];
      SeenOne(registry, args, order, k);
      k := k + 1;
      var accepted := ParametersMatch(d.params, args);
      if accepted && (best.None? || best.value.extrinsic != d.extrinsic) {
        matches := matches + 1;
        if 1 < matches {
          TwoSeen(registry, args, best.value, d);
          return;
        }
        best := Some(d);
      }
    }
    assert order[..k] == order;
    SeenAll(registry, args, order);
  }
}
