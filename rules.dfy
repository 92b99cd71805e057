/**
 * Rules and their start-up validation. A rule names a field of a resource type, may
 * give it an output alias, may mark it output-only, and may declare the field's type.
 * The Go engine inspects the handler's empty resource by reflection; here that
 * resource is described by an explicit prototype.
 */
module Rules {
  import opened Wrappers

  /** The type a rule may declare; `Unspecified` (the zero value) constrains nothing. */
  datatype FieldType = Unspecified | Int | Float | Bool | String

  /** The type a struct field actually has. */
  type ConcreteType = t: FieldType | t != Unspecified witness String

  datatype Rule = Rule(field: string, fieldAlias: string, outputOnly: bool, ruleType: FieldType)

  /** What the handler's `EmptyResource()` is: nil, a value that is not a struct, or a struct. */
  datatype Prototype = Nil | NonStruct | Struct(fields: map<string, ConcreteType>)

  /** Why validation fails; in Go each of these is a panic. */
  datatype ConfigError =
    | NilPrototype
    | NotAStruct
    | MissingField(field: string)
    | TypeMismatch(field: string, declared: FieldType, actual: FieldType)

  /** The rule's contract on the resource type: the field exists, and has the declared type if one is declared. */
  ghost predicate RuleHolds(proto: Prototype, rule: Rule)
  {
    && proto.Struct?
    && rule.field in proto.fields
    && (rule.ruleType == Unspecified || rule.ruleType == proto.fields[rule.field])
  }

  /** Checks one rule against the prototype. */
  function CheckRule(proto: Prototype, rule: Rule): (e: Option<ConfigError>)
    ensures e.None? <==> RuleHolds(proto, rule)
    ensures e == Some(NilPrototype) <==> proto.Nil?
    ensures e == Some(NotAStruct) <==> proto.NonStruct?
    ensures e == Some(MissingField(rule.field)) <==> proto.Struct? && rule.field !in proto.fields
    ensures proto.Struct? && rule.field in proto.fields && rule.ruleType != Unspecified
              && rule.ruleType != proto.fields[rule.field] ==>
      e == Some(TypeMismatch(rule.field, rule.ruleType, proto.fields[rule.field]))
  {
    match proto
    case Nil => Some(NilPrototype)
    case NonStruct => Some(NotAStruct)
    case Struct(fields) =>
      if rule.field !in fields then Some(MissingField(rule.field))
      else if rule.ruleType != Unspecified && rule.ruleType != fields[rule.field] then
        Some(TypeMismatch(rule.field, rule.ruleType, fields[rule.field]))
      else None
  }

  /** Checks the rules in order and stops at the first one that fails. */
  function CheckRules(proto: Prototype, rules: seq<Rule>): (e: Option<ConfigError>)
    ensures e.None? <==> forall i :: 0 <= i < |rules| ==> RuleHolds(proto, rules[i])
    ensures e.Some? ==>
      exists i :: 0 <= i < |rules| && CheckRule(proto, rules[i]) == e &&
        forall j :: 0 <= j < i ==> RuleHolds(proto, rules[j])
  {
    if rules == [] then None
    else
      var first := CheckRule(proto, rules[0]);
      if first.Some? then first
      else CheckRules(proto, rules[1..])
  }

  /**
   * A non-empty rule list fails on a prototype that is nil or not a struct, whatever
   * the rules say.
   */
  lemma {:induction false} BadPrototypeFails(proto: Prototype, rules: seq<Rule>)
    requires rules != [] && !proto.Struct?
    ensures CheckRules(proto, rules) == Some(if proto.Nil? then NilPrototype else NotAStruct)
  {
    assert !RuleHolds(proto, rules[0]);
  }

  /** With no rules the prototype is never inspected: every prototype passes, nil included. */
  lemma NoRulesIgnorePrototype(proto: Prototype)
    ensures CheckRules(proto, []) == None
  {
  }
}
