# Role-mapping rules and lenient document paths

A Dafny model of two pieces of the Elasticsearch .NET client (NEST).

**Role-mapping rule algebra** (`role_mapping_rule.dfy`, module `RoleMappingRule`).
A role-mapping rule is a tree. Its nodes are `all` (conjunction), `any`
(disjunction), `except` (exclusion) and `field` (one leaf predicate on a user's
username, distinguished name, groups, metadata or realm). The C# base class keeps
four nullable payload slots. Here they are four constructors of `Rule`, so a node
always holds exactly one payload. Rules are combined with `|` (`Or`), `&` (`And`),
`+` (`Append`) and `!` (`Not`). A leaf converts implicitly into a `field` node
(`Promote`). `Or` and `And` flatten their operands. An operand that is already
an `any` node (for `Or`) or an `all` node (for `And`) gives its children. Any
other operand becomes a single child. The left operand's contribution comes first.

The model has two partners for the combinators:
- `Eval` is a reference meaning of rules. It evaluates a rule over a
  caller-supplied leaf matcher: `all` needs every child, `any` needs some child,
  `except` negates its child. Flattening is proved to preserve this meaning.
  Under this reading an empty `all` holds and an empty `any` does not, and
  exactly that choice makes the flattening meaning-preserving for empty operands.
- `Flat` is the structural invariant: no `any` node has a direct `any` child and
  no `all` node has a direct `all` child. Every tree built from the operators
  (`Build` over `RuleExpr`) satisfies it.

**Lenient document-path resolution** (`document_optional_path.dfy`, module
`DocumentOptionalPath`). A request addresses `/{index}/{type}/{id}`.
`SetRouteParameters` treats the id differently from the index and the type.
An explicitly set id is used verbatim; an unset id is inferred from the supplied
document. An explicitly set index or type is a marker (a name or a CLR type),
and it still goes through the inferrer to become a name. An unset index or type
takes the default inferred for the document type. Whatever the inferrer returns
is written, including null, and resolution never fails on unset or empty parts. The client's `ElasticInferrer` is a
parameter (`Inferrer`) made of uninterpreted functions. The fluent descriptor
setters are pure record updates. `long.ToString()`, used by `Id(long)`, is
modelled in `long_format.dfy` (module `LongFormat`) together with a reader that
inverts it. `wrappers.dfy` holds `Option`, which stands for a C# null.

## Model

| member | source | states |
|---|---|---|
| RoleMappingRule.WireKeyIdentifiesVariant | src/Nest/XPack/Security/RoleMapping/Rules/Role/RoleMappingRuleBase.cs:11-21 | two nodes are written under the same wire key (`all`, `any`, `except`, `field`) exactly when they are the same variant |
| RoleMappingRule.Promote | src/Nest/XPack/Security/RoleMapping/Rules/Role/RoleMappingRuleBase.cs:63-71 | each of the five leaf kinds converts to a `field` node that carries exactly that leaf |
| RoleMappingRule.PromoteRoundTrip | src/Nest/XPack/Security/RoleMapping/Rules/Role/RoleMappingRuleBase.cs:63-71 | the leaf is read back unchanged from its promoted node, and its kind is kept |
| RoleMappingRule.PromoteInjective | src/Nest/XPack/Security/RoleMapping/Rules/Role/RoleMappingRuleBase.cs:63-71 | distinct leaves promote to distinct rules |
| RoleMappingRule.AnyOrSelf | src/Nest/XPack/Security/RoleMapping/Rules/Role/RoleMappingRuleBase.cs:57-61 | for an `any` node, rebuilding `any` from the result gives the node back; any other rule is returned as a one-element list |
| RoleMappingRule.AllOrSelf | src/Nest/XPack/Security/RoleMapping/Rules/Role/RoleMappingRuleBase.cs:51-55 | for an `all` node, rebuilding `all` from the result gives the node back; any other rule is returned as a one-element list |
| RoleMappingRule.Or | src/Nest/XPack/Security/RoleMapping/Rules/Role/RoleMappingRuleBase.cs:35-41 | the `or` operator always yields an `any` node: the left operand's contribution, then the right's, in order |
| RoleMappingRule.And | src/Nest/XPack/Security/RoleMapping/Rules/Role/RoleMappingRuleBase.cs:43-49 | `&` always yields an `all` node: the left operand's contribution, then the right's, in order |
| RoleMappingRule.Append | src/Nest/XPack/Security/RoleMapping/Rules/Role/RoleMappingRuleBase.cs:29-30 | `+` yields the same tree as `&` for the same operands |
| RoleMappingRule.Not | src/Nest/XPack/Security/RoleMapping/Rules/Role/RoleMappingRuleBase.cs:32-33 | `!` wraps its operand, unchanged and whatever its variant, in an `except` node |
| RoleMappingRule.AnyOrSelfFlattensOnlyAny | src/Nest/XPack/Security/RoleMapping/Rules/Role/RoleMappingRuleBase.cs:57-61 | only `any` nodes are spliced into a disjunction; an `all` node stays one child |
| RoleMappingRule.AllOrSelfFlattensOnlyAll | src/Nest/XPack/Security/RoleMapping/Rules/Role/RoleMappingRuleBase.cs:51-55 | only `all` nodes are spliced into a conjunction; an `any` node stays one child |
| RoleMappingRule.OrKeepsAllNested | src/Nest/XPack/Security/RoleMapping/Rules/Role/RoleMappingRuleBase.cs:35-41 | `Or(All(cs), c)` keeps the `all` node as its first child and does not splice it |
| RoleMappingRule.AndKeepsAnyNested | src/Nest/XPack/Security/RoleMapping/Rules/Role/RoleMappingRuleBase.cs:43-49 | `Any(cs) & c` keeps the `any` node as its first child and does not splice it |
| RoleMappingRule.AndAppendAlias | src/Nest/XPack/Security/RoleMapping/Rules/Role/RoleMappingRuleBase.cs:26-30 | `&` and `+` build identical trees for all operands |
| RoleMappingRule.OrAssociative | src/Nest/XPack/Security/RoleMapping/Rules/Role/RoleMappingRuleBase.cs:35-41 | `Or(Or(a, b), c)` and `Or(a, Or(b, c))` are the same tree |
| RoleMappingRule.AndAssociative | src/Nest/XPack/Security/RoleMapping/Rules/Role/RoleMappingRuleBase.cs:43-49 | `(a & b) & c` and `a & (b & c)` are the same tree |
| RoleMappingRule.OrOfThree | src/Nest/XPack/Security/RoleMapping/Rules/Role/RoleMappingRuleBase.cs:35-41 | three non-`any` rules joined by `Or`, in either grouping, give `Any([a, b, c])` |
| RoleMappingRule.AndOfThree | src/Nest/XPack/Security/RoleMapping/Rules/Role/RoleMappingRuleBase.cs:43-49 | three non-`all` rules joined by `&`, in either grouping, give `All([a, b, c])` |
| RoleMappingRule.ChildCounts | src/Nest/XPack/Security/RoleMapping/Rules/Role/RoleMappingRuleBase.cs:35-49 | the result has as many children as the two operands contribute, and exactly two when neither operand has the variant being built |
| RoleMappingRule.NoDoubleNegationCollapse | src/Nest/XPack/Security/RoleMapping/Rules/Role/RoleMappingRuleBase.cs:32-33 | `!!a` is the two-deep `Except(Except(a))` and never `a` itself |
| RoleMappingRule.CombineTwoLeaves | src/Nest/XPack/Security/RoleMapping/Rules/Role/RoleMappingRuleBase.cs:63-71 | combining two bare leaves with `Or` or `&` promotes each and lists them in operand order |
| RoleMappingRule.AnyOrSelfMeaning | src/Nest/XPack/Security/RoleMapping/Rules/Role/RoleMappingRuleBase.cs:57-61 | a disjunction of the spliced children means the same as the operand |
| RoleMappingRule.AllOrSelfMeaning | src/Nest/XPack/Security/RoleMapping/Rules/Role/RoleMappingRuleBase.cs:51-55 | a conjunction of the spliced children means the same as the operand |
| RoleMappingRule.OrMeaning | src/Nest/XPack/Security/RoleMapping/Rules/Role/RoleMappingRuleBase.cs:23-24 | `Or(a, b)` matches exactly when `a` or `b` matches, whatever the operands' shapes |
| RoleMappingRule.AndMeaning | src/Nest/XPack/Security/RoleMapping/Rules/Role/RoleMappingRuleBase.cs:26-30 | `a & b` and `a + b` match exactly when both operands match |
| RoleMappingRule.NotMeaning | src/Nest/XPack/Security/RoleMapping/Rules/Role/RoleMappingRuleBase.cs:32-33 | `!a` matches exactly when `a` does not, so `!!a` means `a` although it is a different tree |
| RoleMappingRule.OrPreservesFlat | src/Nest/XPack/Security/RoleMapping/Rules/Role/RoleMappingRuleBase.cs:35-41 | `Or` of two flat trees is flat: no `any` node gets a direct `any` child |
| RoleMappingRule.AndPreservesFlat | src/Nest/XPack/Security/RoleMapping/Rules/Role/RoleMappingRuleBase.cs:43-49 | `&` of two flat trees is flat: no `all` node gets a direct `all` child |
| RoleMappingRule.Build | src/Nest/XPack/Security/RoleMapping/Rules/Role/RoleMappingRuleBase.cs:23-71 | every tree built only from promotion, `Or`, `&`, `+` and `!` has no same-variant direct child anywhere |
| RoleMappingRule.BuildMeaning | src/Nest/XPack/Security/RoleMapping/Rules/Role/RoleMappingRuleBase.cs:23-41 | the tree built from an operator expression means what the expression means as a boolean formula |
| LongFormat.Format | src/Nest/DSL/Paths/DocumentOptionalPathDescriptor.cs:111-114 | `long.ToString()` writes a sign exactly for negative numbers, then digits without a leading zero |
| LongFormat.FormatRoundTrip | src/Nest/DSL/Paths/DocumentOptionalPathDescriptor.cs:111-114 | the decimal text of every `long` reads back as that number |
| LongFormat.FormatInjective | src/Nest/DSL/Paths/DocumentOptionalPathDescriptor.cs:111-114 | two `long`s have the same text exactly when they are equal |
| DocumentOptionalPath.SetRouteParameters | src/Nest/DSL/Paths/DocumentOptionalPathDescriptor.cs:22-37 | an explicit index or type goes through the inferrer, an unset one takes the document type's default, and the inferred value (possibly null) is written as it is; an explicit id is used verbatim and only an unset id is inferred from the document; nothing else in the path info changes; there is no precondition |
| DocumentOptionalPath.ExplicitIdIgnoresInferrer | src/Nest/DSL/Paths/DocumentOptionalPathDescriptor.cs:32 | with an explicit id, every inferrer resolves the same id: the explicit one |
| DocumentOptionalPath.ExplicitIdWinsOverObject | src/Nest/DSL/Paths/DocumentOptionalPathDescriptor.cs:32 | when both an id and a document are set, the id wins |
| DocumentOptionalPath.ExplicitIndexIsInferred | src/Nest/DSL/Paths/DocumentOptionalPathDescriptor.cs:30 | an explicit index still depends on the inferrer: inferrers that name it differently resolve it differently |
| DocumentOptionalPath.IndexByName | src/Nest/DSL/Paths/DocumentOptionalPathDescriptor.cs:78-82 | `Index(string)` sets the index to that name and leaves type, id and document as they were |
| DocumentOptionalPath.IndexByType | src/Nest/DSL/Paths/DocumentOptionalPathDescriptor.cs:84-88 | `Index(Type)` sets the index to that type and leaves the other parts as they were |
| DocumentOptionalPath.IndexOf | src/Nest/DSL/Paths/DocumentOptionalPathDescriptor.cs:90-94 | `Index<TAlternative>()` has the same effect as `Index(typeof(TAlternative))` |
| DocumentOptionalPath.TypeByName | src/Nest/DSL/Paths/DocumentOptionalPathDescriptor.cs:96-100 | `Type(string)` sets the type to that name and leaves the other parts as they were |
| DocumentOptionalPath.TypeByType | src/Nest/DSL/Paths/DocumentOptionalPathDescriptor.cs:101-105 | `Type(Type)` sets the type to that type and leaves the other parts as they were |
| DocumentOptionalPath.TypeOf | src/Nest/DSL/Paths/DocumentOptionalPathDescriptor.cs:106-110 | `Type<TAlternative>()` has the same effect as `Type(typeof(TAlternative))` |
| DocumentOptionalPath.IdByString | src/Nest/DSL/Paths/DocumentOptionalPathDescriptor.cs:115-119 | `Id(string)` sets the id and leaves the other parts as they were |
| DocumentOptionalPath.IdByLong | src/Nest/DSL/Paths/DocumentOptionalPathDescriptor.cs:111-114 | `Id(long n)` has the same effect as `Id` of the decimal text of `n`, and that text reads back as `n` |
| DocumentOptionalPath.Object | src/Nest/DSL/Paths/DocumentOptionalPathDescriptor.cs:120-124 | `Object(doc)` sets the document the id is inferred from and leaves the other parts as they were |
| DocumentOptionalPath.IdByLongInjective | src/Nest/DSL/Paths/DocumentOptionalPathDescriptor.cs:111-114 | distinct numeric ids resolve to distinct ids |
| DocumentOptionalPath.IndexSetterIsLocal | src/Nest/DSL/Paths/DocumentOptionalPathDescriptor.cs:30 | setting the index changes only the resolved index |
| DocumentOptionalPath.TypeSetterIsLocal | src/Nest/DSL/Paths/DocumentOptionalPathDescriptor.cs:31 | setting the type changes only the resolved type |
| DocumentOptionalPath.IdSettersAreLocal | src/Nest/DSL/Paths/DocumentOptionalPathDescriptor.cs:32 | setting the id or the document changes only the resolved id, and a document has no effect once an id is set |
| DocumentOptionalPath.EntryPointsAgree | src/Nest/DSL/Paths/DocumentOptionalPathDescriptor.cs:40-54 | a descriptor configured through its setters resolves exactly like a request whose properties hold the same parts, since both delegate to the same routine |
| DocumentOptionalPath.ResolutionExamples | src/Nest/DSL/Paths/DocumentOptionalPathDescriptor.cs:56-63 | explicit parts pass through, an id comes from the document when only the document is set, and a path with nothing set resolves to the defaults without failing |

## Left out

- Null operands to `|`, `&`, `+` and `!` are not modelled; every operand is a rule. `AnyOrSelf(null)` and `AllOrSelf(null)` return a one-element list holding `null` (RoleMappingRuleBase.cs:54 and :60). `AddRangeIfNotNull` decides whether that element is kept, and it is not part of this model.
- The JSON formatter of rules is not part of this model, so there is no serialization round trip. Only the wire key of each variant (`WireKey`) is recorded.
- The leaf predicate classes and the node constructors are not part of this model. A leaf is a kind plus opaque matcher strings.
- `Eval` is a reference reading of what the authorization service does with a rule. The client never evaluates rules.
- `ElasticInferrer` and the connection settings are not part of this model. Index and type naming, defaults for the document type and id inference are uninterpreted functions in `Inferrer`. Each of them may return null (`None`).
- Null arguments to the descriptor setters (`Index((string)null)`, `Id((string)null)`, `Object(null)`) are not modelled; a setter always sets its part. A part that was never set is `None`.
- Mutation and fluent chaining are modelled as value updates. A setter returns the updated path instead of the same object, and `SetRouteParameters` returns the updated path info instead of writing into it.
- LongFormat.Format: models the invariant culture. `long.ToString()` takes its minus sign from the current culture, which is not modelled.
- The benchmarking and diagnostics program under `src/Tests/Tests.ScratchPad` has nothing to model: it is console I/O, timers and an in-memory HTTP client.
