/** The action registry: which actions may be proposed, with which consequences, and
    which falsification checks they must survive. */
module Registry {
  import opened Basics
  import opened Json
  import opened Contracts

  datatype Definition = Definition(action: string, schema: Json, consequences: set<Consequence>, checks: seq<string>)

  predicate ValidDefinition(d: Definition) {
    d.consequences != {} && d.checks != [] && Distinct(d.checks)
  }

  /** A registry files every definition under its own action. */
  ghost predicate WellFiled(definitions: map<string, Definition>) {
    forall a :: a in definitions ==> definitions[a].action == a && ValidDefinition(definitions[a])
  }

  /** JSON Schema evaluation belongs to a library: any relation between schema and parameters. */
  type Conforms = (Json, map<string, Json>) -> bool

  /** The definition that admits the candidate, if there is one. */
  function Admitting(definitions: map<string, Definition>, conforms: Conforms, c: Candidate): Option<Definition> {
    if c.action !in definitions then None
    else
      var d := definitions[c.action];
      if c.consequence !in d.consequences then None
      else if !conforms(d.schema, c.parameters) then None
      else Some(d)
  }

  class ActionRegistry {
    var definitions: map<string, Definition>
    const conforms: Conforms

    constructor (conforms: Conforms)
      ensures definitions == map[] && this.conforms == conforms
      ensures WellFiled(definitions)
    {
      definitions := map[];
      this.conforms := conforms;
    }

    /** A second definition of an action is refused; the first one stays. */
    method Register(d: Definition) returns (registered: Answer<()>)
      requires WellFiled(definitions) && ValidDefinition(d)
      modifies this
      ensures WellFiled(definitions)
      ensures registered.Ok? <==> d.action !in old(definitions)
      ensures registered.Ok? ==> definitions == old(definitions)[d.action := d]
      ensures registered.Raise? ==> definitions == old(definitions)
    {
      if d.action in definitions {
        return Raise("ValueError");
      }
      definitions := definitions[d.action := d];
      registered := Ok(());
    }

    method Validate(c: Candidate) returns (d: Answer<Definition>)
      requires WellFiled(definitions)
      ensures d.Ok? <==> Admitting(definitions, conforms, c).Some?
      ensures d.Ok? ==> d.value.action == c.action && c.consequence in d.value.consequences
                        && conforms(d.value.schema, c.parameters) && d.value == definitions[c.action]
    {
      if c.action !in definitions {
        return Raise("ValueError");
      }
      var definition := definitions[c.action];
      if c.consequence !in definition.consequences {
        return Raise("ValueError");
      }
      if !conforms(definition.schema, c.parameters) {
        return Raise("ValueError");
      }
      d := Ok(definition);
    }
  }
}
