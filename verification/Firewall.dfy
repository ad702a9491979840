/** The FORWARD chain: an ordered list of rules of which the first match decides. */
module Firewall {
  import opened Options
  import opened Subnets

  const DEFAULT_TENANT := "defaulttenant"

  datatype Target = ACCEPT | DROP

  /** src and dst are tenant blocks; None matches any address. */
  datatype Rule = Rule(src: Option<int>, dst: Option<int>, target: Target)

  predicate Matches(r: Rule, src: int, dst: int) {
    && (r.src.Some? ==> r.src.value <= src < r.src.value + BLOCK)
    && (r.dst.Some? ==> r.dst.value <= dst < r.dst.value + BLOCK)
  }

  /** None when no rule matches and the chain's policy decides. */
  function Verdict(chain: seq<Rule>, src: int, dst: int): Option<Target> {
    if chain == [] then None
    else if Matches(chain[0], src, dst) then Some(chain[0].target)
    else Verdict(chain[1..], src, dst)
  }

  function InsertFirstUnique(chain: seq<Rule>, r: Rule): seq<Rule> {
    if r in chain then chain else [r] + chain
  }

  function AppendUnique(chain: seq<Rule>, r: Rule): seq<Rule> {
    if r in chain then chain else chain + [r]
  }

  function AllowForwarding(chain: seq<Rule>, t: int): seq<Rule> {
    AppendUnique(AppendUnique(chain, Rule(Some(t), None, ACCEPT)), Rule(None, Some(t), ACCEPT))
  }

  function BlockTraffic(chain: seq<Rule>, t1: int, t2: int): seq<Rule> {
    InsertFirstUnique(InsertFirstUnique(chain, Rule(Some(t1), Some(t2), DROP)), Rule(Some(t2), Some(t1), DROP))
  }

  /** addTenant blocks the new tenant against every other listed one but the default tenant. */
  predicate Blocked(other: string, name: string) {
    other != name && other != DEFAULT_TENANT
  }

  function BlockOthers(
      chain: seq<Rule>, own: int, name: string, tenants: map<string, int>, order: seq<string>): seq<Rule>
    requires forall t :: t in order ==> t in tenants
  {
    if order == [] then chain
    else
      var n := |order| - 1;
      var before := BlockOthers(chain, own, name, tenants, order[..n]);
      if Blocked(order[n], name) then BlockTraffic(before, own, tenants[order[n]]) else before
  }

  ghost predicate Enumerates(order: seq<string>, names: set<string>) {
    (set t | t in order) == names && |order| == |names|
  }

  class Chain {
    var rules: seq<Rule>

    constructor ()
      ensures rules == []
    {
      rules := [];
    }

    method AllowForwardingTenant(t: int)
      modifies this
      ensures rules == AllowForwarding(old(rules), t)
    {
      var out, back := Rule(Some(t), None, ACCEPT), Rule(None, Some(t), ACCEPT);
      if out !in rules {
        rules := rules + [out];
      }
      if back !in rules {
        rules := rules + [back];
      }
    }

    method BlockTenant2TenantTraffic(t1: int, t2: int)
      modifies this
      ensures rules == BlockTraffic(old(rules), t1, t2)
    {
      var there, back := Rule(Some(t1), Some(t2), DROP), Rule(Some(t2), Some(t1), DROP);
      if there !in rules {
        rules := [there] + rules;
      }
      if back !in rules {
        rules := [back] + rules;
      }
    }

    /** The firewall part of addTenant; the tenant map is visited in any order. */
    method AddTenantRules(own: int, name: string, tenants: map<string, int>) returns (ghost order: seq<string>)
      modifies this
      ensures Enumerates(order, tenants.Keys)
      ensures rules == BlockOthers(AllowForwarding(old(rules), own), own, name, tenants, order)
    {
      AllowForwardingTenant(own);
      ghost var start := rules;
      var rest := tenants.Keys;
      order := [];
      while rest != {}
        invariant rest <= tenants.Keys
        invariant forall t :: t in order <==> t in tenants.Keys - rest
        invariant |order| + |rest| == |tenants.Keys|
        invariant rules == BlockOthers(start, own, name, tenants, order)
      {
        var other :| other in rest;
        if other != name && other != DEFAULT_TENANT {
          BlockTenant2TenantTraffic(own, tenants[other]);
        }
        assert (order + [other])[..|order|] == order;
        order := order + [other];
        rest := rest - {other};
      }
    }
  }

  // ---------------------------------------------------------------- rule order

  ghost predicate DropsFirst(chain: seq<Rule>) {
    forall i, j :: 0 <= i < j < |chain| && chain[i].target.ACCEPT? ==> chain[j].target.ACCEPT?
  }

  /** With all drops in front the order of the rules no longer matters. */
  lemma {:induction false} VerdictExact(chain: seq<Rule>, src: int, dst: int)
    requires DropsFirst(chain)
    ensures Verdict(chain, src, dst) == Some(DROP) <==>
            exists r :: r in chain && r.target.DROP? && Matches(r, src, dst)
    ensures Verdict(chain, src, dst) == Some(ACCEPT) <==>
            && (forall r :: r in chain && r.target.DROP? ==> !Matches(r, src, dst))
            && (exists r :: r in chain && Matches(r, src, dst))
  {
    if chain != [] {
      var r := chain[0];
      VerdictExact(chain[1..], src, dst);
      assert forall x :: x in chain <==> x == r || x in chain[1..];
    }
  }

  ghost predicate NoRepeats(chain: seq<Rule>) {
    forall i, j :: 0 <= i < j < |chain| ==> chain[i] != chain[j]
  }

  /** No rule is put in twice, whatever is added. */
  lemma {:induction false} RulesOnce(
      chain: seq<Rule>, own: int, name: string, tenants: map<string, int>, order: seq<string>)
    requires NoRepeats(chain) && forall t :: t in order ==> t in tenants
    ensures NoRepeats(AllowForwarding(chain, own))
    ensures NoRepeats(BlockOthers(chain, own, name, tenants, order))
  {
    AllowOnce(chain, own);
    hide NoRepeats, AllowForwarding, BlockTraffic;
    if order != [] {
      var n := |order| - 1;
      RulesOnce(chain, own, name, tenants, order[..n]);
      BlockOnce(BlockOthers(chain, own, name, tenants, order[..n]), own, tenants[order[n]]);
    }
  }

  lemma {:induction false} AllowOnce(chain: seq<Rule>, t: int)
    requires NoRepeats(chain)
    ensures NoRepeats(AllowForwarding(chain, t))
  {
  }

  lemma {:induction false} BlockOnce(chain: seq<Rule>, t1: int, t2: int)
    requires NoRepeats(chain)
    ensures NoRepeats(BlockTraffic(chain, t1, t2))
  {
  }

  lemma {:induction false} AllowAdds(chain: seq<Rule>, t: int)
    ensures DropsFirst(chain) ==> DropsFirst(AllowForwarding(chain, t))
    ensures forall r :: r in AllowForwarding(chain, t) <==>
              r in chain || r == Rule(Some(t), None, ACCEPT) || r == Rule(None, Some(t), ACCEPT)
  {
  }

  lemma {:induction false} BlockAdds(chain: seq<Rule>, t1: int, t2: int)
    ensures DropsFirst(chain) ==> DropsFirst(BlockTraffic(chain, t1, t2))
    ensures forall r :: r in BlockTraffic(chain, t1, t2) <==>
              r in chain || r == Rule(Some(t1), Some(t2), DROP) || r == Rule(Some(t2), Some(t1), DROP)
  {
  }

  /** r is one of the two drops that adding name with block own puts between itself and another tenant. */
  ghost predicate NewDrop(r: Rule, own: int, name: string, tenants: map<string, int>, visited: set<string>)
    requires visited <= tenants.Keys
  {
    exists t :: t in visited && Blocked(t, name) &&
      (r == Rule(Some(own), Some(tenants[t]), DROP) || r == Rule(Some(tenants[t]), Some(own), DROP))
  }

  /** Whatever the order of the visit, the chain gains exactly the drops against the listed tenants. */
  lemma {:induction false} BlockOthersAdds(
      chain: seq<Rule>, own: int, name: string, tenants: map<string, int>, order: seq<string>)
    requires forall t :: t in order ==> t in tenants
    ensures DropsFirst(chain) ==> DropsFirst(BlockOthers(chain, own, name, tenants, order))
    ensures forall r :: r in BlockOthers(chain, own, name, tenants, order) <==>
              r in chain || NewDrop(r, own, name, tenants, set t | t in order)
  {
    if order != [] {
      var n := |order| - 1;
      BlockOthersAdds(chain, own, name, tenants, order[..n]);
      assert order == order[..n] + [order[n]];
      assert (set t | t in order) == (set t | t in order[..n]) + {order[n]};
      var before := BlockOthers(chain, own, name, tenants, order[..n]);
      if Blocked(order[n], name) {
        BlockAdds(before, own, tenants[order[n]]);
      }
    }
  }
}
