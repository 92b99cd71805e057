/**
 * Output projection: turning a resource into the object that goes into the response.
 * Every field of the resource is emitted. A field keeps its default serialization key
 * (its `json` tag) unless a rule names it; then the first rule naming it decides, and
 * the field is emitted under that rule's alias when the alias is not empty.
 */
module Projection {
  import opened Rules

  datatype FieldValue = Str(s: string) | Num(n: int) | Flag(b: bool)

  /** One field of a resource value: its Go name, its default key and its value. */
  datatype Field = Field(name: string, jsonKey: string, value: FieldValue)

  /** A resource value: its fields in declaration order. */
  type Resource = seq<Field>

  /** A projected resource: output key to value. */
  type Object = map<string, FieldValue>

  /** Some rule names the field. */
  ghost predicate Named(name: string, rules: seq<Rule>)
  {
    exists i :: 0 <= i < |rules| && rules[i].field == name
  }

  /** The key the field is emitted under. */
  function OutputKey(f: Field, rules: seq<Rule>): (k: string)
    ensures !Named(f.name, rules) ==> k == f.jsonKey
    ensures Named(f.name, rules) ==>
      exists i :: 0 <= i < |rules| && rules[i].field == f.name
        && (forall j :: 0 <= j < i ==> rules[j].field != f.name)
        && k == (if rules[i].fieldAlias != "" then rules[i].fieldAlias else f.jsonKey)
  {
    if rules == [] then f.jsonKey
    else if rules[0].field == f.name then
      (if rules[0].fieldAlias != "" then rules[0].fieldAlias else f.jsonKey)
    else
      var k := OutputKey(f, rules[1..]);
      assert Named(f.name, rules) ==> Named(f.name, rules[1..]) by {
        if Named(f.name, rules) {
          var i :| 0 <= i < |rules| && rules[i].field == f.name;
          assert rules[1..][i - 1].field == f.name;
        }
      }
      assert Named(f.name, rules[1..]) ==> Named(f.name, rules) by {
        if Named(f.name, rules[1..]) {
          var i :| 0 <= i < |rules| - 1 && rules[1..][i].field == f.name;
          assert rules[i + 1].field == f.name;
        }
      }
      k
  }

  /** Projects a resource: the fields are put into the object one after the other. */
  function Project(fields: Resource, rules: seq<Rule>): (out: Object)
    ensures out.Keys == set i | 0 <= i < |fields| :: OutputKey(fields[i], rules)
  {
    if fields == [] then map[]
    else
      var init := fields[..|fields| - 1];
      var last := fields[|fields| - 1];
      var out := Project(init, rules)[OutputKey(last, rules) := last.value];
      assert forall i :: 0 <= i < |init| ==> init[i] == fields[i];
      out
  }

  function ProjectAll(resources: seq<Resource>, rules: seq<Rule>): (out: seq<Object>)
    ensures |out| == |resources|
  {
    seq(|resources|, i requires 0 <= i < |resources| => Project(resources[i], rules))
  }

  /** No two fields of the resource are emitted under the same key. */
  predicate DistinctKeys(fields: Resource, rules: seq<Rule>)
  {
    forall i, j :: 0 <= i < j < |fields| ==> OutputKey(fields[i], rules) != OutputKey(fields[j], rules)
  }

  /** When the output keys are distinct, every field's value is found under its output key. */
  lemma {:induction false} ProjectKeepsValues(fields: Resource, rules: seq<Rule>)
    requires DistinctKeys(fields, rules)
    ensures forall i :: 0 <= i < |fields| ==> Project(fields, rules)[OutputKey(fields[i], rules)] == fields[i].value
    decreases |fields|
  {
    if fields != [] {
      var init := fields[..|fields| - 1];
      assert forall i :: 0 <= i < |init| ==> init[i] == fields[i];
      ProjectKeepsValues(init, rules);
    }
  }

  /** Without rules a resource is emitted under its default keys, as the plain serializer would. */
  lemma {:induction false} ProjectWithoutRules(fields: Resource)
    ensures forall i :: 0 <= i < |fields| ==> OutputKey(fields[i], []) == fields[i].jsonKey
    ensures Project(fields, []).Keys == set i | 0 <= i < |fields| :: fields[i].jsonKey
  {
  }

  /**
   * The first rule naming a field renames it: with a non-empty alias the field's value
   * is emitted under the alias.
   */
  lemma {:induction false} AliasReplacesKey(fields: Resource, rules: seq<Rule>, i: nat, r: nat)
    requires DistinctKeys(fields, rules)
    requires i < |fields| && r < |rules|
    requires rules[r].field == fields[i].name && rules[r].fieldAlias != ""
    requires forall j :: 0 <= j < r ==> rules[j].field != fields[i].name
    ensures OutputKey(fields[i], rules) == rules[r].fieldAlias
    ensures rules[r].fieldAlias in Project(fields, rules)
    ensures Project(fields, rules)[rules[r].fieldAlias] == fields[i].value
  {
    FirstRuleDecides(fields[i], rules, r);
    ProjectKeepsValues(fields, rules);
  }

  lemma {:induction false} FirstRuleDecides(f: Field, rules: seq<Rule>, r: nat)
    requires r < |rules| && rules[r].field == f.name
    requires forall j :: 0 <= j < r ==> rules[j].field != f.name
    ensures OutputKey(f, rules) == (if rules[r].fieldAlias != "" then rules[r].fieldAlias else f.jsonKey)
    decreases r
  {
    if r > 0 {
      FirstRuleDecides(f, rules[1..], r - 1);
    }
  }

  /** Rules that agree on field and alias project alike: `OutputOnly` and the declared type do not rename. */
  lemma {:induction false} OnlyFieldAndAliasMatter(fields: Resource, rules: seq<Rule>, others: seq<Rule>)
    requires |rules| == |others|
    requires forall k :: 0 <= k < |rules| ==>
      rules[k].field == others[k].field && rules[k].fieldAlias == others[k].fieldAlias
    ensures Project(fields, rules) == Project(fields, others)
    decreases |fields|
  {
    if fields != [] {
      OnlyFieldAndAliasMatter(fields[..|fields| - 1], rules, others);
      SameKey(fields[|fields| - 1], rules, others);
    }
  }

  lemma {:induction false} SameKey(f: Field, rules: seq<Rule>, others: seq<Rule>)
    requires |rules| == |others|
    requires forall k :: 0 <= k < |rules| ==>
      rules[k].field == others[k].field && rules[k].fieldAlias == others[k].fieldAlias
    ensures OutputKey(f, rules) == OutputKey(f, others)
    decreases |rules|
  {
    if rules != [] && rules[0].field != f.name {
      SameKey(f, rules[1..], others[1..]);
    }
  }
}
