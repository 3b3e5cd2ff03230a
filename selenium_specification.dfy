/**
 * The specification of the Selenium protocol as the dumper reads it: an
 * ordered list of methods, each with its ordered list of parameters. A
 * loader outside this model builds these values; the dumper only reads them.
 */
module SeleniumSpecification {

  datatype Parameter = Parameter(name: string, description: string)

  /**
   * One protocol command. `returnType` and `returnDescription` are read
   * only when `isAction` is false; a return type the loader left unset is
   * the empty string.
   */
  datatype Method = Method(
    name: string,
    description: string,
    isAction: bool,
    returnType: string,
    returnDescription: string,
    parameters: seq<Parameter>)

  datatype Specification = Specification(methods: seq<Method>)
}
