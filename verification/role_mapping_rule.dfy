/**
  The role-mapping rule algebra: a rule is a tree whose inner nodes are
  conjunctions (`all`), disjunctions (`any`) and exclusions (`except`), and
  whose leaves are field predicates over the identity of a user.  Rules are
  combined with `|` (Or), `&` and `+` (And, Append) and `!` (Not); the binary
  combinators splice in the children of an operand that already has the
  variant being built instead of nesting it.
*/
module RoleMappingRule {
  import opened Wrappers

  /** The five kinds of leaf predicate a rule can test. */
  datatype LeafKind = Username | DistinguishedName | Groups | Metadata | Realm

  /** A leaf predicate: its kind and its matcher values, otherwise opaque. */
  datatype FieldRule = FieldRule(kind: LeafKind, matchers: seq<string>)

  /**
    A rule node.  Exactly one of the four payloads of the wire object is
    present, so each payload is its own constructor.
  */
  datatype Rule =
    | All(allRules: seq<Rule>)
    | Any(anyRules: seq<Rule>)
    | Except(exceptRule: Rule)
    | Field(fieldRule: FieldRule)

  /** The key under which a node's payload is written on the wire. */
  function WireKey(r: Rule): string
  {
    match r
    case All(_) => "all"
    case Any(_) => "any"
    case Except(_) => "except"
    case Field(_) => "field"
  }

  predicate SameVariant(a: Rule, b: Rule)
  {
    || (a.All? && b.All?)
    || (a.Any? && b.Any?)
    || (a.Except? && b.Except?)
    || (a.Field? && b.Field?)
  }

  /** Each variant owns a distinct key, so a serialized node names its variant. */
  lemma WireKeyIdentifiesVariant(a: Rule, b: Rule)
    ensures WireKey(a) == WireKey(b) <==> SameVariant(a, b)
  {
  }

  // ---------------------------------------------------------------------
  // Promotion of leaves
  // ---------------------------------------------------------------------

  /** The implicit conversion of any of the five leaf kinds into a rule. */
  function Promote(leaf: FieldRule): (r: Rule)
    ensures r.Field? && r.fieldRule == leaf
  {
    Field(leaf)
  }

  /** The leaf a rule carries, if it is a field rule. */
  function LeafOf(r: Rule): (leaf: Option<FieldRule>)
    ensures leaf.Some? <==> r.Field?
  {
    if r.Field? then Some(r.fieldRule) else None
  }

  /** Promotion loses nothing: the leaf can be read back unchanged, whatever its kind. */
  lemma PromoteRoundTrip(leaf: FieldRule)
    ensures LeafOf(Promote(leaf)) == Some(leaf)
    ensures Promote(leaf).fieldRule.kind == leaf.kind
  {
  }

  /** Distinct leaves promote to distinct rules. */
  lemma PromoteInjective(a: FieldRule, b: FieldRule)
    ensures Promote(a) == Promote(b) <==> a == b
  {
  }

  // ---------------------------------------------------------------------
  // Flattening helpers and the combinators
  // ---------------------------------------------------------------------

  /** The children an operand contributes to an `any` node. */
  function AnyOrSelf(r: Rule): (cs: seq<Rule>)
    ensures r.Any? ==> Any(cs) == r
    ensures !r.Any? ==> cs == [r]
  {
    if r.Any? then r.anyRules else [r]
  }

  /** The children an operand contributes to an `all` node. */
  function AllOrSelf(r: Rule): (cs: seq<Rule>)
    ensures r.All? ==> All(cs) == r
    ensures !r.All? ==> cs == [r]
  {
    if r.All? then r.allRules else [r]
  }

  /** `left | right`: a disjunction of the flattened operands, left first. */
  function Or(left: Rule, right: Rule): (r: Rule)
    ensures r.Any?
    ensures r.anyRules == AnyOrSelf(left) + AnyOrSelf(right)
  {
    Any(AnyOrSelf(left) + AnyOrSelf(right))
  }

  /** `left & right`: a conjunction of the flattened operands, left first. */
  function And(left: Rule, right: Rule): (r: Rule)
    ensures r.All?
    ensures r.allRules == AllOrSelf(left) + AllOrSelf(right)
  {
    All(AllOrSelf(left) + AllOrSelf(right))
  }

  /** `left + right`: the same combination as `&`. */
  function Append(left: Rule, right: Rule): (r: Rule)
    ensures r == And(left, right)
  {
    And(left, right)
  }

  /** `!rule`: an exclusion of the operand, which is kept as it is. */
  function Not(rule: Rule): (r: Rule)
    ensures r.Except? && r.exceptRule == rule
  {
    Except(rule)
  }

  // ---------------------------------------------------------------------
  // Structural properties of the combinators
  // ---------------------------------------------------------------------

  /** `AnyOrSelf` splices only `any` nodes; everything else stays one child. */
  lemma AnyOrSelfFlattensOnlyAny(cs: seq<Rule>, x: Rule)
    ensures AnyOrSelf(Any(cs)) == cs
    ensures !x.Any? ==> AnyOrSelf(x) == [x]
    ensures AnyOrSelf(All(cs)) == [All(cs)]
  {
  }

  /** `AllOrSelf` splices only `all` nodes; everything else stays one child. */
  lemma AllOrSelfFlattensOnlyAll(cs: seq<Rule>, x: Rule)
    ensures AllOrSelf(All(cs)) == cs
    ensures !x.All? ==> AllOrSelf(x) == [x]
    ensures AllOrSelf(Any(cs)) == [Any(cs)]
  {
  }

  /** Or keeps a conjunction operand nested as one child. */
  lemma OrKeepsAllNested(cs: seq<Rule>, c: Rule)
    ensures Or(All(cs), c).anyRules[0] == All(cs)
    ensures !c.Any? ==> Or(All(cs), c).anyRules == [All(cs), c]
  {
  }

  /** And keeps a disjunction operand nested as one child. */
  lemma AndKeepsAnyNested(cs: seq<Rule>, c: Rule)
    ensures And(Any(cs), c).allRules[0] == Any(cs)
    ensures !c.All? ==> And(Any(cs), c).allRules == [Any(cs), c]
  {
  }

  /** The two operators that build conjunctions are interchangeable. */
  lemma AndAppendAlias(a: Rule, b: Rule)
    ensures And(a, b) == Append(a, b)
  {
  }

  /** Flattening makes the grouping of `|` invisible. */
  lemma OrAssociative(a: Rule, b: Rule, c: Rule)
    ensures Or(Or(a, b), c) == Or(a, Or(b, c))
  {
  }

  /** Flattening makes the grouping of `&` invisible. */
  lemma AndAssociative(a: Rule, b: Rule, c: Rule)
    ensures And(And(a, b), c) == And(a, And(b, c))
  {
  }

  /** Three non-disjunctions combined with Or, in either grouping, give one flat node. */
  lemma OrOfThree(a: Rule, b: Rule, c: Rule)
    requires !a.Any? && !b.Any? && !c.Any?
    ensures Or(Or(a, b), c) == Any([a, b, c])
    ensures Or(a, Or(b, c)) == Any([a, b, c])
  {
  }

  /** Three non-conjunctions combined with And, in either grouping, give one flat node. */
  lemma AndOfThree(a: Rule, b: Rule, c: Rule)
    requires !a.All? && !b.All? && !c.All?
    ensures And(And(a, b), c) == All([a, b, c])
    ensures And(a, And(b, c)) == All([a, b, c])
  {
  }

  /** Child counts: each operand contributes its own children or itself. */
  lemma ChildCounts(l: Rule, r: Rule)
    ensures |Or(l, r).anyRules| == |AnyOrSelf(l)| + |AnyOrSelf(r)|
    ensures |And(l, r).allRules| == |AllOrSelf(l)| + |AllOrSelf(r)|
    ensures !l.Any? && !r.Any? ==> |Or(l, r).anyRules| == 2
    ensures !l.All? && !r.All? ==> |And(l, r).allRules| == 2
  {
  }

  /** Negation never cancels: two exclusions stay two levels deep. */
  lemma NoDoubleNegationCollapse(a: Rule)
    ensures Not(Not(a)) == Except(Except(a))
    ensures Not(Not(a)) != a
  {
    assert a < Except(a) < Except(Except(a));
  }

  /** Combining two promoted leaves lists both leaves in operand order. */
  lemma CombineTwoLeaves(x: FieldRule, y: FieldRule)
    ensures Or(Promote(x), Promote(y)) == Any([Field(x), Field(y)])
    ensures And(Promote(x), Promote(y)) == All([Field(x), Field(y)])
  {
  }

  // ---------------------------------------------------------------------
  // Meaning of a rule
  // ---------------------------------------------------------------------

  /**
    Whether a rule matches an identity, given which leaf predicates the
    identity satisfies.  An `all` node needs every child, an `any` node some
    child, an `except` node the failure of its child.
  */
  predicate Eval(r: Rule, matches: FieldRule -> bool)
  {
    match r
    case All(cs) => forall i :: 0 <= i < |cs| ==> Eval(cs[i], matches)
    case Any(cs) => exists i :: 0 <= i < |cs| && Eval(cs[i], matches)
    case Except(x) => !Eval(x, matches)
    case Field(leaf) => matches(leaf)
  }

  lemma AnyOfConcat(ls: seq<Rule>, rs: seq<Rule>, matches: FieldRule -> bool)
    ensures Eval(Any(ls + rs), matches) == (Eval(Any(ls), matches) || Eval(Any(rs), matches))
  {
    var cs := ls + rs;
    if Eval(Any(cs), matches) {
      var i :| 0 <= i < |cs| && Eval(cs[i], matches);
      if i < |ls| {
        assert cs[i] == ls[i];
      } else {
        assert cs[i] == rs[i - |ls|];
      }
    }
    if Eval(Any(ls), matches) {
      var i :| 0 <= i < |ls| && Eval(ls[i], matches);
      assert cs[i] == ls[i];
    }
    if Eval(Any(rs), matches) {
      var i :| 0 <= i < |rs| && Eval(rs[i], matches);
      assert cs[|ls| + i] == rs[i];
    }
  }

  lemma AllOfConcat(ls: seq<Rule>, rs: seq<Rule>, matches: FieldRule -> bool)
    ensures Eval(All(ls + rs), matches) == (Eval(All(ls), matches) && Eval(All(rs), matches))
  {
    var cs := ls + rs;
    if Eval(All(ls), matches) && Eval(All(rs), matches) {
      forall i | 0 <= i < |cs|
        ensures Eval(cs[i], matches)
      {
        if i < |ls| {
          assert cs[i] == ls[i];
        } else {
          assert cs[i] == rs[i - |ls|];
        }
      }
    }
    if Eval(All(cs), matches) {
      forall i | 0 <= i < |ls|
        ensures Eval(ls[i], matches)
      {
        assert cs[i] == ls[i];
      }
      forall i | 0 <= i < |rs|
        ensures Eval(rs[i], matches)
      {
        assert cs[|ls| + i] == rs[i];
      }
    }
  }

  /** Splicing an operand into a disjunction keeps its meaning. */
  lemma AnyOrSelfMeaning(r: Rule, matches: FieldRule -> bool)
    ensures Eval(Any(AnyOrSelf(r)), matches) == Eval(r, matches)
  {
    if !r.Any? {
      assert AnyOrSelf(r)[0] == r;
    }
  }

  /** Splicing an operand into a conjunction keeps its meaning. */
  lemma AllOrSelfMeaning(r: Rule, matches: FieldRule -> bool)
    ensures Eval(All(AllOrSelf(r)), matches) == Eval(r, matches)
  {
    if !r.All? {
      assert AllOrSelf(r)[0] == r;
    }
  }

  /** `|` is disjunction, whatever the shape of its operands. */
  lemma OrMeaning(a: Rule, b: Rule, matches: FieldRule -> bool)
    ensures Eval(Or(a, b), matches) == (Eval(a, matches) || Eval(b, matches))
  {
    AnyOfConcat(AnyOrSelf(a), AnyOrSelf(b), matches);
    AnyOrSelfMeaning(a, matches);
    AnyOrSelfMeaning(b, matches);
  }

  /** `&` and `+` are conjunction, whatever the shape of their operands. */
  lemma AndMeaning(a: Rule, b: Rule, matches: FieldRule -> bool)
    ensures Eval(And(a, b), matches) == (Eval(a, matches) && Eval(b, matches))
    ensures Eval(Append(a, b), matches) == (Eval(a, matches) && Eval(b, matches))
  {
    AllOfConcat(AllOrSelf(a), AllOrSelf(b), matches);
    AllOrSelfMeaning(a, matches);
    AllOrSelfMeaning(b, matches);
  }

  /** `!` is negation; a double negation means its operand without being it. */
  lemma NotMeaning(a: Rule, matches: FieldRule -> bool)
    ensures Eval(Not(a), matches) == !Eval(a, matches)
    ensures Eval(Not(Not(a)), matches) == Eval(a, matches)
  {
  }

  // ---------------------------------------------------------------------
  // Trees built with the operators
  // ---------------------------------------------------------------------

  /**
    No `any` node has a direct `any` child and no `all` node has a direct
    `all` child, anywhere in the tree.
  */
  predicate Flat(r: Rule)
  {
    match r
    case All(cs) => forall i :: 0 <= i < |cs| ==> !cs[i].All? && Flat(cs[i])
    case Any(cs) => forall i :: 0 <= i < |cs| ==> !cs[i].Any? && Flat(cs[i])
    case Except(x) => Flat(x)
    case Field(_) => true
  }

  /** `|` keeps a flat tree flat. */
  lemma OrPreservesFlat(a: Rule, b: Rule)
    requires Flat(a) && Flat(b)
    ensures Flat(Or(a, b))
  {
  }

  /** `&` keeps a flat tree flat. */
  lemma AndPreservesFlat(a: Rule, b: Rule)
    requires Flat(a) && Flat(b)
    ensures Flat(And(a, b))
  {
  }

  /** A rule expression as a caller writes it: leaves joined by the operators. */
  datatype RuleExpr =
    | Leaf(leaf: FieldRule)
    | OrExpr(left: RuleExpr, right: RuleExpr)
    | AndExpr(left: RuleExpr, right: RuleExpr)
    | AppendExpr(left: RuleExpr, right: RuleExpr)
    | NotExpr(operand: RuleExpr)

  /** The boolean meaning of an operator expression. */
  predicate Denote(e: RuleExpr, matches: FieldRule -> bool)
  {
    match e
    case Leaf(leaf) => matches(leaf)
    case OrExpr(l, r) => Denote(l, matches) || Denote(r, matches)
    case AndExpr(l, r) => Denote(l, matches) && Denote(r, matches)
    case AppendExpr(l, r) => Denote(l, matches) && Denote(r, matches)
    case NotExpr(x) => !Denote(x, matches)
  }

  /** The tree an operator expression evaluates to; every such tree is flat. */
  function Build(e: RuleExpr): (r: Rule)
    ensures Flat(r)
  {
    match e
    case Leaf(leaf) => Promote(leaf)
    case OrExpr(l, r) =>
      var a, b := Build(l), Build(r);
      OrPreservesFlat(a, b);
      Or(a, b)
    case AndExpr(l, r) =>
      var a, b := Build(l), Build(r);
      AndPreservesFlat(a, b);
      And(a, b)
    case AppendExpr(l, r) =>
      var a, b := Build(l), Build(r);
      AndPreservesFlat(a, b);
      Append(a, b)
    case NotExpr(x) => Not(Build(x))
  }

  /** Flattening never changes what an expression means. */
  lemma {:induction false} BuildMeaning(e: RuleExpr, matches: FieldRule -> bool)
    ensures Eval(Build(e), matches) == Denote(e, matches)
  {
    match e
    case Leaf(_) =>
    case OrExpr(l, r) =>
      BuildMeaning(l, matches);
      BuildMeaning(r, matches);
      OrMeaning(Build(l), Build(r), matches);
    case AndExpr(l, r) =>
      BuildMeaning(l, matches);
      BuildMeaning(r, matches);
      AndMeaning(Build(l), Build(r), matches);
    case AppendExpr(l, r) =>
      BuildMeaning(l, matches);
      BuildMeaning(r, matches);
      AndMeaning(Build(l), Build(r), matches);
    case NotExpr(x) =>
      BuildMeaning(x, matches);
  }
}
