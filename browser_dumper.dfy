/**
 * The class dumper: turns a Selenium specification into the PHP source of
 * the `GeneratedBrowser` class. The functions give the generated text as a
 * function of the specification; the methods `DumpMethod` and `Dump` build
 * it step by step, as the dumper does, and are proved to produce exactly it.
 */
module BrowserDumper {
  import opened Wrappers
  import opened PhpStrings
  import opened SeleniumSpecification
  import opened MethodBuilding

  /** A query method whose return type has no typed getter on the driver. */
  datatype DumpError = MalformedMethod(methodName: string)

  /** The return types the dumper recognises, one per typed getter. */
  datatype ReturnKind = BooleanKind | StringKind | StringArrayKind | NumberKind

  /** The fixed head of the generated file, up to the class's opening brace. */
  const Preamble: string := @"<?php
/*
 * This file is part of PHP Selenium Library.
 * (c) Alexandre Salomé <alexandre.salome@gmail.com>
 *
 * For the full copyright and license information, please view the LICENSE
 * file that was distributed with this source code.
 */

namespace Selenium;

/**
 * Browser class containing all methods of Selenium Server, with documentation.
 *
 * This class was generated, do not modify it.
 *
 * @author Alexandre Salomé <alexandre.salome@gmail.com>
 */
class GeneratedBrowser extends BaseBrowser
{
"

  /** The class's closing brace. */
  const Closer: string := "}\n"

  /** What follows every generated method in the file. */
  const BlockSeparator: string := "\n\n"

  /** The `@return` line of every action method. */
  const FluidReturnDoc: string := "@return \\Selenium\\Browser Fluid interface"

  /** The string-keyed dispatch on the declared return type (exact, case-sensitive). */
  function ParseReturnType(returnType: string): (kind: Option<ReturnKind>)
  {
    if returnType == "boolean" then Some(BooleanKind)
    else if returnType == "string" then Some(StringKind)
    else if returnType == "string[]" then Some(StringArrayKind)
    else if returnType == "number" then Some(NumberKind)
    else None
  }

  /** The driver's typed getter for each recognised return type. */
  function Getter(kind: ReturnKind): (g: string)
  {
    match kind
    case BooleanKind => "getBoolean"
    case StringKind => "getString"
    case StringArrayKind => "getStringArray"
    case NumberKind => "getNumber"
  }

  /**
   * The type written in a query method's `@return` line: `number` is
   * documented as `integer`, or `integer number` when the return description
   * begins with "of "; every other type is written as declared.
   */
  function DocumentedType(returnType: string, returnDescription: string): (t: string)
  {
    if returnType == "number" then
      if StrPos(returnDescription, "of ") == Some(0) then "integer number" else "integer"
    else
      returnType
  }

  /** The documentation line of one parameter. */
  function ParamLine(p: Parameter): (line: string)
  {
    "@param string $" + p.name + " " + p.description + "\n\n"
  }

  /** The documentation lines of all parameters, in parameter order. */
  function ParamDocs(ps: seq<Parameter>): (docs: string)
  {
    Concat(seq(|ps|, i requires 0 <= i < |ps| => ParamLine(ps[i])))
  }

  /** The bare parameter names, in parameter order: what the builder receives. */
  function ParamNames(ps: seq<Parameter>): (names: seq<string>)
  {
    seq(|ps|, i requires 0 <= i < |ps| => ps[i].name)
  }

  /** The parameter names as PHP variables, in parameter order. */
  function DollarNames(ps: seq<Parameter>): (names: seq<string>)
  {
    seq(|ps|, i requires 0 <= i < |ps| => "$" + ps[i].name)
  }

  /** The comma-separated argument list forwarded to the driver. */
  function Signature(ps: seq<Parameter>): (sig: string)
  {
    Implode(", ", DollarNames(ps))
  }

  /** What follows the quoted method name in the driver call: `, ` and the signature, if the signature is true in PHP. */
  function ArgumentTail(signature: string): (tail: string)
  {
    if Truthy(signature) then ", " + signature else ""
  }

  /** The `@return` line of a method. */
  function ReturnDoc(m: Method): (line: string)
  {
    if m.isAction then FluidReturnDoc
    else "@return " + DocumentedType(m.returnType, m.returnDescription) + " " + m.returnDescription
  }

  /** The documentation handed to the builder. */
  function Documentation(m: Method): (doc: string)
  {
    m.description + "\n\n" + ParamDocs(m.parameters) + ReturnDoc(m)
  }

  /** The body handed to the builder, or the error for an unrecognised return type. */
  function Body(m: Method): (r: Result<string, DumpError>)
  {
    var tail := ArgumentTail(Signature(m.parameters));
    if m.isAction then
      Ok("$this->driver->action(\"" + m.name + "\"" + tail + ");" + "\n" + "\n" + "return $this;")
    else
      match ParseReturnType(m.returnType)
      case None => Err(MalformedMethod(m.name))
      case Some(kind) => Ok("return $this->driver->" + Getter(kind) + "(\"" + m.name + "\"" + tail + ");")
  }

  /** A method the dumper can generate: an action, or a query with a recognised return type. */
  predicate Recognised(m: Method): (b: bool)
  {
    m.isAction || ParseReturnType(m.returnType).Some?
  }

  /** What the builder is given for `m`. */
  function UnitFor(m: Method): (r: Result<MethodUnit, DumpError>)
  {
    match Body(m)
    case Err(e) => Err(e)
    case Ok(body) => Ok(MethodUnit(m.name, ParamNames(m.parameters), Documentation(m), body))
  }

  /** The source text of one generated method. */
  function MethodCode(m: Method, render: MethodUnit -> string): (r: Result<string, DumpError>)
  {
    match UnitFor(m)
    case Err(e) => Err(e)
    case Ok(unit) => Ok(render(unit))
  }

  /** Two pieces of output one after the other; the first error wins. */
  function Then(first: Result<string, DumpError>, second: Result<string, DumpError>): (r: Result<string, DumpError>)
  {
    match first
    case Err(e) => Err(e)
    case Ok(a) =>
      match second
      case Err(e) => Err(e)
      case Ok(b) => Ok(a + b)
  }

  /** The generated methods, each followed by a blank line, in specification order. */
  function Blocks(ms: seq<Method>, gen: Method -> Result<string, DumpError>): (r: Result<string, DumpError>)
  {
    if ms == [] then Ok("")
    else Then(Then(gen(ms[0]), Ok(BlockSeparator)), Blocks(ms[1..], gen))
  }

  /** The per-method generator `dump` applies to each method. */
  function Generator(render: MethodUnit -> string): (gen: Method -> Result<string, DumpError>)
  {
    m => MethodCode(m, render)
  }

  /** The whole generated class file. */
  function DumpText(spec: Specification, render: MethodUnit -> string): (r: Result<string, DumpError>)
  {
    Then(Then(Ok(Preamble), Blocks(spec.methods, Generator(render))), Ok(Closer))
  }

  lemma {:induction false} BlocksAppend(a: seq<Method>, b: seq<Method>, gen: Method -> Result<string, DumpError>)
    ensures Blocks(a + b, gen) == Then(Blocks(a, gen), Blocks(b, gen))
  {
    if a == [] {
      assert a + b == b;
      match Blocks(b, gen)
      case Err(_) =>
      case Ok(t) => assert "" + t == t;
    } else {
      assert (a + b)[0] == a[0];
      assert (a + b)[1..] == a[1..] + b;
      BlocksAppend(a[1..], b, gen);
      ThenAssoc(Then(gen(a[0]), Ok(BlockSeparator)), Blocks(a[1..], gen), Blocks(b, gen));
    }
  }

  lemma ThenAssoc(x: Result<string, DumpError>, y: Result<string, DumpError>, z: Result<string, DumpError>)
    ensures Then(x, Then(y, z)) == Then(Then(x, y), z)
  {
    if x.Ok? && y.Ok? && z.Ok? {
      assert x.value + (y.value + z.value) == (x.value + y.value) + z.value;
    }
  }

  /** The body of `m` is missing exactly when `m` is not recognised. */
  lemma MethodCodeOkIff(m: Method, render: MethodUnit -> string)
    ensures MethodCode(m, render).Ok? <==> Recognised(m)
    ensures !Recognised(m) ==> MethodCode(m, render) == Err(MalformedMethod(m.name))
  {
  }

  /**
   * Builds one method as `dumpMethod` does: the documentation and the
   * signature are accumulated parameter by parameter while the builder
   * collects the bare names, then the body is chosen by action flag and
   * return type, and the builder renders the result.
   */
  method DumpMethod(m: Method, render: MethodUnit -> string) returns (r: Result<string, DumpError>)
    ensures r == MethodCode(m, render)
    ensures r.Err? <==> !Recognised(m)
    ensures r.Err? ==> r.error == MalformedMethod(m.name)
  {
    var builder := new MethodBuilder();
    var documentation := m.description + "\n\n";
    var signature: seq<string> := [];
    var ps := m.parameters;
    var i := 0;
    while i < |ps|
      invariant 0 <= i <= |ps|
      invariant builder.parameters == ParamNames(ps[..i])
      invariant documentation == m.description + "\n\n" + ParamDocs(ps[..i])
      invariant signature == DollarNames(ps[..i])
    {
      ParametersStep(ps, i);
      builder.AddParameter(ps[i].name);
      documentation := documentation + ("@param string $" + ps[i].name + " " + ps[i].description + "\n\n");
      signature := signature + ["$" + ps[i].name];
      i := i + 1;
    }
    assert ps[..i] == ps;
    var joined := Implode(", ", signature);
    assert joined == Signature(ps);
    var body: string;
    if m.isAction {
      documentation := documentation + FluidReturnDoc;
      body := "$this->driver->action(\"" + m.name + "\"" + (if Truthy(joined) then ", " + joined else "") + ");" + "\n";
      body := body + "\n";
      body := body + "return $this;";
    } else {
      var returnType := m.returnType;
      var kind := ParseReturnType(returnType);
      if kind == Some(NumberKind) {
        returnType := "integer";
        if StrPos(m.returnDescription, "of ") == Some(0) {
          returnType := "integer number";
        }
      }
      documentation := documentation + ("@return " + returnType + " " + m.returnDescription);
      if kind.None? {
        return Err(MalformedMethod(m.name));
      }
      var getMethod := Getter(kind.value);
      body := "return $this->driver->" + getMethod + "(\"" + m.name + "\"" + (if Truthy(joined) then ", " + joined else "") + ");";
    }
    builder.SetName(m.name);
    builder.SetBody(body);
    builder.SetDocumentation(documentation);
    assert documentation == Documentation(m);
    assert builder.Unit() == UnitFor(m).value;
    var code := builder.BuildCode(render);
    return Ok(code);
  }

  /**
   * Builds the class file as `dump` does: the preamble, then each method's
   * code followed by a blank line, in specification order, then the closing
   * brace. The first unrecognised method aborts the dump with no output.
   */
  method Dump(spec: Specification, render: MethodUnit -> string) returns (r: Result<string, DumpError>)
    ensures r == DumpText(spec, render)
  {
    var methods := spec.methods;
    var result := Preamble;
    var i := 0;
    while i < |methods|
      invariant 0 <= i <= |methods|
      invariant Blocks(methods[..i], Generator(render)).Ok?
      invariant result == Preamble + Blocks(methods[..i], Generator(render)).value
    {
      var code := DumpMethod(methods[i], render);
      if code.Err? {
        BlocksErrAt(methods, i, Generator(render));
        return Err(code.error);
      }
      AppendBlock(Preamble, result, methods, i, Generator(render));
      result := result + code.value + "\n\n";
      i := i + 1;
    }
    assert methods[..i] == methods;
    result := result + "}\n";
    return Ok(result);
  }

  /** One step of the dump loop: appending the next method's block keeps `result` equal to head plus blocks so far. */
  lemma AppendBlock(head: string, result: string, ms: seq<Method>, i: nat, gen: Method -> Result<string, DumpError>)
    requires i < |ms|
    requires Blocks(ms[..i], gen).Ok? && gen(ms[i]).Ok?
    requires result == head + Blocks(ms[..i], gen).value
    ensures Blocks(ms[..i + 1], gen).Ok?
    ensures result + gen(ms[i]).value + "\n\n" == head + Blocks(ms[..i + 1], gen).value
  {
    BlocksSnoc(ms, i, gen);
  }

  /** Extending a successful prefix by one successful method appends its block. */
  lemma BlocksSnoc(ms: seq<Method>, i: nat, gen: Method -> Result<string, DumpError>)
    requires i < |ms|
    requires Blocks(ms[..i], gen).Ok? && gen(ms[i]).Ok?
    ensures Blocks(ms[..i + 1], gen)
         == Ok(Blocks(ms[..i], gen).value + (gen(ms[i]).value + BlockSeparator))
  {
    assert ms[..i + 1] == ms[..i] + [ms[i]];
    BlocksAppend(ms[..i], [ms[i]], gen);
    var c := gen(ms[i]).value;
    assert [ms[i]][1..] == [];
    assert Blocks([ms[i]][1..], gen) == Ok("");
    assert c + BlockSeparator + "" == c + BlockSeparator;
    assert Blocks([ms[i]], gen) == Ok(c + BlockSeparator);
  }

  /** A failing method after a successful prefix makes the whole dump fail with its error. */
  lemma BlocksErrAt(ms: seq<Method>, i: nat, gen: Method -> Result<string, DumpError>)
    requires i < |ms|
    requires Blocks(ms[..i], gen).Ok? && gen(ms[i]).Err?
    ensures Blocks(ms, gen) == Err(gen(ms[i]).error)
  {
    assert ms == ms[..i] + ms[i..];
    BlocksAppend(ms[..i], ms[i..], gen);
    assert ms[i..][0] == ms[i];
  }

  /** Taking one more parameter extends each per-parameter accumulation by that parameter's piece. */
  lemma ParametersStep(ps: seq<Parameter>, i: nat)
    requires i < |ps|
    ensures ParamNames(ps[..i + 1]) == ParamNames(ps[..i]) + [ps[i].name]
    ensures DollarNames(ps[..i + 1]) == DollarNames(ps[..i]) + ["$" + ps[i].name]
    ensures ParamDocs(ps[..i + 1]) == ParamDocs(ps[..i]) + ParamLine(ps[i])
  {
    assert ps[..i + 1] == ps[..i] + [ps[i]];
    ParamDocsAppend(ps[..i], [ps[i]]);
    ParamDocsSingle(ps[i]);
  }

  lemma ParamDocsAppend(a: seq<Parameter>, b: seq<Parameter>)
    ensures ParamDocs(a + b) == ParamDocs(a) + ParamDocs(b)
  {
    var la := seq(|a|, i requires 0 <= i < |a| => ParamLine(a[i]));
    var lb := seq(|b|, i requires 0 <= i < |b| => ParamLine(b[i]));
    assert seq(|a + b|, i requires 0 <= i < |a + b| => ParamLine((a + b)[i])) == la + lb;
    ConcatAppend(la, lb);
  }

  lemma ParamDocsSingle(p: Parameter)
    ensures ParamDocs([p]) == ParamLine(p)
  {
    assert seq(1, i requires 0 <= i < 1 => ParamLine([p][i])) == [ParamLine(p)];
    assert Concat([ParamLine(p)]) == ParamLine(p) + Concat([]);
  }
}
