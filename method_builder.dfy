/**
 * The line-level source builder the dumper hands each generated method to.
 * Its layout rules are not part of this model: rendering is a parameter
 * `render` that maps the four accumulated inputs to the method's source text.
 */
module MethodBuilding {

  /** What the builder has been given: name, bare parameter names, doc text, body. */
  datatype MethodUnit = MethodUnit(
    name: string,
    parameters: seq<string>,
    documentation: string,
    body: string)

  /** An accumulator that is filled in piece by piece and then rendered. */
  class MethodBuilder {
    var name: string
    var parameters: seq<string>
    var documentation: string
    var body: string

    /** The inputs accumulated so far. */
    function Unit(): (unit: MethodUnit)
      reads this
    {
      MethodUnit(name, parameters, documentation, body)
    }

    constructor ()
      ensures Unit() == MethodUnit("", [], "", "")
    {
      name, parameters, documentation, body := "", [], "", "";
    }

    method AddParameter(parameter: string)
      modifies this
      ensures Unit() == old(Unit()).(parameters := old(parameters) + [parameter])
    {
      parameters := parameters + [parameter];
    }

    method SetName(newName: string)
      modifies this
      ensures Unit() == old(Unit()).(name := newName)
    {
      name := newName;
    }

    method SetBody(newBody: string)
      modifies this
      ensures Unit() == old(Unit()).(body := newBody)
    {
      body := newBody;
    }

    method SetDocumentation(newDocumentation: string)
      modifies this
      ensures Unit() == old(Unit()).(documentation := newDocumentation)
    {
      documentation := newDocumentation;
    }

    /** The rendered method: a function of the accumulated inputs and nothing else. */
    method BuildCode(render: MethodUnit -> string) returns (code: string)
      ensures code == render(Unit())
    {
      code := render(Unit());
    }
  }
}
