/**
 * An event's subscribers: registrations in insertion order, each under the
 * token handed back by add_X; remove_X deletes by token.
 */
module EventRegistry {
  import opened Printing

  /** The value of an EventRegistrationToken. */
  type Token = nat

  datatype Registration<H> = Registration(token: Token, handler: H)

  /** The tokens of `regs`, in registration order. */
  function Tokens<H>(regs: seq<Registration<H>>): (r: seq<Token>)
    ensures |r| == |regs|
    ensures forall i :: 0 <= i < |regs| ==> r[i] == regs[i].token
  {
    seq(|regs|, i requires 0 <= i < |regs| => regs[i].token)
  }

  lemma TokensSnoc<H>(regs: seq<Registration<H>>, i: nat)
    requires i < |regs|
    ensures Tokens(regs[..i + 1]) == Tokens(regs[..i]) + [regs[i].token]
  {
  }

  /** Every token of `regs` lies below `bound`, the next token to hand out. */
  predicate TokensBelow<H>(regs: seq<Registration<H>>, bound: Token)
  {
    forall i :: 0 <= i < |regs| ==> regs[i].token < bound
  }

  /** `regs` without the registrations made under `token`; the others keep their order. */
  function Unregister<H>(regs: seq<Registration<H>>, token: Token): (r: seq<Registration<H>>)
    ensures forall i :: 0 <= i < |r| ==> r[i] in regs && r[i].token != token
    ensures forall i :: 0 <= i < |regs| && regs[i].token != token ==> regs[i] in r
    ensures token !in Tokens(r)
    ensures |r| <= |regs|
  {
    if regs == [] then []
    else (if regs[0].token == token then [] else [regs[0]]) + Unregister(regs[1..], token)
  }

  /** Whether a registration is kept when `token` is removed. */
  function KeptWithout<H>(token: Token): Registration<H> -> bool
  {
    (reg: Registration<H>) => reg.token != token
  }

  /** Removal keeps exactly the registrations under other tokens, in their
      original order. */
  lemma {:induction false} UnregisterKeepsOrder<H>(regs: seq<Registration<H>>, token: Token)
    ensures Unregister(regs, token) == Filter(regs, KeptWithout(token))
  {
    if regs != [] {
      var keep := KeptWithout(token);
      var head := [regs[0]];
      assert regs == head + regs[1..];
      FilterAppend(head, regs[1..], keep);
      assert head[..0] == [];
      assert Filter(head, keep) == (if regs[0].token != token then head else []);
      UnregisterKeepsOrder(regs[1..], token);
    }
  }

  /** Removing a token no registration carries changes nothing. */
  lemma {:induction false} UnregisterAbsent<H>(regs: seq<Registration<H>>, token: Token)
    requires token !in Tokens(regs)
    ensures Unregister(regs, token) == regs
  {
    if regs != [] {
      assert regs[0].token == Tokens(regs)[0];
      assert Tokens(regs[1..]) == Tokens(regs)[1..];
      UnregisterAbsent(regs[1..], token);
    }
  }

  /** Adding a registration under a fresh token and removing that token
      restores the registry exactly. */
  lemma {:induction false} UnregisterUndoesRegister<H>(regs: seq<Registration<H>>, token: Token, handler: H)
    requires TokensBelow(regs, token)
    ensures Unregister(regs + [Registration(token, handler)], token) == regs
  {
    if regs == [] {
      assert [Registration(token, handler)][1..] == [];
    } else {
      var rest := regs + [Registration(token, handler)];
      assert rest[0] == regs[0] && rest[1..] == regs[1..] + [Registration(token, handler)];
      UnregisterUndoesRegister(regs[1..], token, handler);
    }
  }

  /** Removal keeps the tokens below the same bound. */
  lemma UnregisterTokensBelow<H>(regs: seq<Registration<H>>, token: Token, bound: Token)
    requires TokensBelow(regs, bound)
    ensures TokensBelow(Unregister(regs, token), bound)
  {
    var r := Unregister(regs, token);
    forall i | 0 <= i < |r| ensures r[i].token < bound {
      var j :| 0 <= j < |regs| && regs[j] == r[i];
    }
  }
}
