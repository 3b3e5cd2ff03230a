/**
 * What the generated text is, stated independently of how the dumper
 * builds it: one block per specification method in order, the shape of
 * each method's documentation, signature and body, the return-type table
 * and the failure on an unrecognised return type.
 */
module BrowserDumperProperties {
  import opened Wrappers
  import opened PhpStrings
  import opened SeleniumSpecification
  import opened MethodBuilding
  import opened BrowserDumper

  // ---------------------------------------------------------------------
  // The class file

  /** Each method's code followed by the blank line that the dump puts after it. */
  function Separated(codes: seq<string>): (blocks: seq<string>)
  {
    seq(|codes|, i requires 0 <= i < |codes| => codes[i] + BlockSeparator)
  }

  lemma {:induction false} BlocksOkIff(ms: seq<Method>, gen: Method -> Result<string, DumpError>)
    ensures Blocks(ms, gen).Ok? <==> forall i :: 0 <= i < |ms| ==> gen(ms[i]).Ok?
  {
    if ms != [] {
      BlocksOkIff(ms[1..], gen);
      assert forall i :: 1 <= i < |ms| ==> ms[i] == ms[1..][i - 1];
    }
  }

  /** The dump succeeds exactly when every method of the specification is recognised. */
  lemma DumpOkIff(spec: Specification, render: MethodUnit -> string)
    ensures DumpText(spec, render).Ok?
        <==> forall i :: 0 <= i < |spec.methods| ==> Recognised(spec.methods[i])
  {
    var ms := spec.methods;
    BlocksOkIff(ms, Generator(render));
    forall i | 0 <= i < |ms|
      ensures Generator(render)(ms[i]).Ok? <==> Recognised(ms[i])
    {
      MethodCodeOkIff(ms[i], render);
    }
  }

  /**
   * The first unrecognised method aborts the whole dump, and the error
   * names that method; no text is produced.
   */
  lemma DumpFailsOnFirstMalformed(spec: Specification, render: MethodUnit -> string, i: nat)
    requires i < |spec.methods|
    requires !Recognised(spec.methods[i])
    requires forall j :: 0 <= j < i ==> Recognised(spec.methods[j])
    ensures DumpText(spec, render) == Err(MalformedMethod(spec.methods[i].name))
  {
    var ms := spec.methods;
    var gen := Generator(render);
    forall j | 0 <= j < i
      ensures gen(ms[..i][j]).Ok?
    {
      MethodCodeOkIff(ms[j], render);
    }
    BlocksOkIff(ms[..i], gen);
    MethodCodeOkIff(ms[i], render);
    BlocksErrAt(ms, i, gen);
  }

  lemma {:induction false} BlocksLayout(ms: seq<Method>, gen: Method -> Result<string, DumpError>, codes: seq<string>)
    requires |codes| == |ms|
    requires forall i :: 0 <= i < |ms| ==> gen(ms[i]) == Ok(codes[i])
    ensures Blocks(ms, gen) == Ok(Concat(Separated(codes)))
  {
    if ms != [] {
      assert forall i :: 0 <= i < |ms[1..]| ==> ms[1..][i] == ms[i + 1] && codes[1..][i] == codes[i + 1];
      BlocksLayout(ms[1..], gen, codes[1..]);
      assert Separated(codes)[1..] == Separated(codes[1..]);
      assert codes[0] + BlockSeparator + Concat(Separated(codes[1..]))
          == (codes[0] + BlockSeparator) + Concat(Separated(codes[1..]));
    }
  }

  /**
   * When method `i` of the specification generates `codes[i]`, the file is
   * the preamble, then each `codes[i]` followed by a blank line, in
   * specification order, then the closing brace: exactly one block per
   * method.
   */
  lemma DumpLayout(spec: Specification, render: MethodUnit -> string, codes: seq<string>)
    requires |codes| == |spec.methods|
    requires forall i :: 0 <= i < |codes| ==> MethodCode(spec.methods[i], render) == Ok(codes[i])
    ensures DumpText(spec, render) == Ok(Preamble + Concat(Separated(codes)) + Closer)
  {
    BlocksLayout(spec.methods, Generator(render), codes);
  }

  // ---------------------------------------------------------------------
  // Documentation

  /**
   * The documentation is the description and a blank line, then one
   * `@param` line per parameter in parameter order, then the `@return`
   * line: parameter `i`'s line comes right after the lines of the
   * parameters before it.
   */
  lemma DocumentationLayout(m: Method, i: nat)
    requires i < |m.parameters|
    ensures Documentation(m)
         == m.description + "\n\n" + ParamDocs(m.parameters[..i])
            + ("@param string $" + m.parameters[i].name + " " + m.parameters[i].description + "\n\n")
            + ParamDocs(m.parameters[i + 1..]) + ReturnDoc(m)
  {
    var ps := m.parameters;
    assert ps == ps[..i] + ([ps[i]] + ps[i + 1..]);
    ParamDocsAppend(ps[..i], [ps[i]] + ps[i + 1..]);
    ParamDocsAppend([ps[i]], ps[i + 1..]);
    ParamDocsSingle(ps[i]);
  }

  /** An action method's documentation ends with the fluent-interface `@return` line. */
  lemma ActionDocumentationEnd(m: Method)
    requires m.isAction
    ensures |FluidReturnDoc| <= |Documentation(m)|
    ensures Documentation(m)[|Documentation(m)| - |FluidReturnDoc|..] == "@return \\Selenium\\Browser Fluid interface"
  {
  }

  // ---------------------------------------------------------------------
  // Signature and call arguments

  /** The signature is empty with no parameters and begins with `$` otherwise. */
  lemma SignatureStart(ps: seq<Parameter>)
    ensures |ps| == 0 ==> Signature(ps) == ""
    ensures |ps| > 0 ==> |Signature(ps)| > 0 && Signature(ps)[0] == '$'
  {
  }

  /** In PHP the signature is true exactly when the method has parameters ("0" cannot arise). */
  lemma SignatureTruthyIff(ps: seq<Parameter>)
    ensures Truthy(Signature(ps)) <==> |ps| > 0
  {
    SignatureStart(ps);
    if |ps| > 0 {
      assert Signature(ps) != "0" by {
        assert Signature(ps)[0] != "0"[0];
      }
    }
  }

  /** The signature lists the `$`-prefixed names in parameter order, separated by ", ". */
  lemma SignatureSnoc(ps: seq<Parameter>, p: Parameter)
    ensures Signature(ps + [p])
         == if ps == [] then "$" + p.name else Signature(ps) + ", " + "$" + p.name
  {
    assert DollarNames(ps + [p]) == DollarNames(ps) + ["$" + p.name];
    if ps == [] {
      assert DollarNames(ps + [p]) == ["$" + p.name];
    } else {
      ImplodeSnoc(", ", DollarNames(ps), "$" + p.name);
      assert Signature(ps) + ", " + ("$" + p.name) == Signature(ps) + ", " + "$" + p.name;
    }
  }

  /** The builder receives the bare parameter names, in parameter order. */
  lemma BuilderParameters(m: Method)
    requires UnitFor(m).Ok?
    ensures UnitFor(m).value.name == m.name
    ensures |UnitFor(m).value.parameters| == |m.parameters|
    ensures forall i :: 0 <= i < |m.parameters| ==> UnitFor(m).value.parameters[i] == m.parameters[i].name
    ensures forall i :: 0 <= i < |m.parameters| ==> DollarNames(m.parameters)[i] == "$" + UnitFor(m).value.parameters[i]
  {
  }

  /**
   * The argument list of a generated driver call, written out: the quoted
   * method name alone, or followed by ", " and the signature.
   */
  function CallArguments(name: string, ps: seq<Parameter>): (args: string)
  {
    if |ps| == 0 then "(\"" + name + "\")"
    else "(\"" + name + "\", " + Signature(ps) + ")"
  }

  // ---------------------------------------------------------------------
  // Bodies

  /**
   * An action method calls the driver's `action` with its name and its
   * parameters, then returns the browser itself.
   */
  lemma ActionBody(m: Method)
    requires m.isAction
    ensures Body(m) == Ok("$this->driver->action" + CallArguments(m.name, m.parameters) + ";\n\nreturn $this;")
  {
    var sig := Signature(m.parameters);
    SignatureTruthyIff(m.parameters);
    var tail := ArgumentTail(sig);
    assert "$this->driver->action(\"" + m.name + "\"" + tail + ");" + "\n" + "\n" + "return $this;"
        == "$this->driver->action" + ("(\"" + m.name + "\"" + tail + ")") + ";\n\nreturn $this;";
    if |m.parameters| == 0 {
      assert "(\"" + m.name + "\"" + tail + ")" == "(\"" + m.name + "\")";
    } else {
      assert "(\"" + m.name + "\"" + tail + ")" == "(\"" + m.name + "\", " + sig + ")";
    }
  }

  /** An action method's code does not depend on its return type or return description. */
  lemma ActionIgnoresReturnFields(m: Method, returnType: string, returnDescription: string, render: MethodUnit -> string)
    requires m.isAction
    ensures MethodCode(m.(returnType := returnType, returnDescription := returnDescription), render)
         == MethodCode(m, render)
  {
  }

  /** A query method returns the driver's typed getter applied to its name and parameters. */
  lemma QueryBody(m: Method, kind: ReturnKind)
    requires !m.isAction
    requires ParseReturnType(m.returnType) == Some(kind)
    ensures Body(m) == Ok("return $this->driver->" + Getter(kind) + CallArguments(m.name, m.parameters) + ";")
  {
    var sig := Signature(m.parameters);
    SignatureTruthyIff(m.parameters);
    var tail := ArgumentTail(sig);
    var g := Getter(kind);
    assert "return $this->driver->" + g + "(\"" + m.name + "\"" + tail + ");"
        == "return $this->driver->" + g + ("(\"" + m.name + "\"" + tail + ")") + ";";
    if |m.parameters| == 0 {
      assert "(\"" + m.name + "\"" + tail + ")" == "(\"" + m.name + "\")";
    } else {
      assert "(\"" + m.name + "\"" + tail + ")" == "(\"" + m.name + "\", " + sig + ")";
    }
  }

  /** A query method with an unrecognised return type yields the error naming it. */
  lemma UnrecognisedQueryFails(m: Method, render: MethodUnit -> string)
    requires !m.isAction
    requires m.returnType !in {"boolean", "string", "string[]", "number"}
    ensures MethodCode(m, render) == Err(MalformedMethod(m.name))
  {
  }

  // ---------------------------------------------------------------------
  // The return-type table

  /** The declared spelling of each recognised return type. */
  function ReturnTypeName(kind: ReturnKind): (name: string)
  {
    match kind
    case BooleanKind => "boolean"
    case StringKind => "string"
    case StringArrayKind => "string[]"
    case NumberKind => "number"
  }

  /** The dispatch recognises exactly the four spellings, each as its own kind. */
  lemma ParseReturnTypeIff(returnType: string, kind: ReturnKind)
    ensures ParseReturnType(returnType) == Some(kind) <==> returnType == ReturnTypeName(kind)
  {
  }

  /** Distinct recognised return types use distinct getters. */
  lemma GetterInjective(k1: ReturnKind, k2: ReturnKind)
    ensures Getter(k1) == Getter(k2) ==> k1 == k2
  {
  }

  /**
   * `number` is documented as `integer number` when the return description
   * begins with "of " and as `integer` otherwise; every other recognised
   * type is documented as declared.
   */
  lemma DocumentedTypeCases(returnType: string, returnDescription: string)
    requires ParseReturnType(returnType).Some?
    ensures returnType == "number" && "of " <= returnDescription
        ==> DocumentedType(returnType, returnDescription) == "integer number"
    ensures returnType == "number" && !("of " <= returnDescription)
        ==> DocumentedType(returnType, returnDescription) == "integer"
    ensures returnType != "number" ==> DocumentedType(returnType, returnDescription) == returnType
  {
  }

  // ---------------------------------------------------------------------
  // Worked examples

  /** The `click` command of the protocol: an action with one parameter, `locator`. */
  function Click(): (m: Method)
  {
    Method("click", "Clicks on an element.", true, "", "",
           [Parameter("locator", "an element locator")])
  }

  /** `click` forwards its locator to the driver's `action` and returns the browser. */
  lemma ClickBody()
    ensures Body(Click()) == Ok("$this->driver->action" + "(\"click\", $locator)" + ";\n\nreturn $this;")
  {
    var ps := Click().parameters;
    assert DollarNames(ps)[0] == "$" + "locator" == "$locator";
    assert DollarNames(ps) == ["$locator"];
    assert Signature(ps) == "$locator";
    ActionBody(Click());
    assert "(\"" + "click" + "\", " + "$locator" + ")" == "(\"click\", $locator)";
  }

  /** `click` documents its locator as a string parameter. */
  lemma ClickParameterDocs()
    ensures ParamDocs(Click().parameters) == "@param string $locator an element locator\n\n"
  {
    ParamDocsSingle(Click().parameters[0]);
  }

  /** A count is documented as `integer number`. */
  lemma CountExample()
    ensures DocumentedType("number", "of open windows") == "integer number"
  {
  }

  /** A plain numeric value is documented as `integer`, and read with `getNumber` like a count. */
  lemma NumberValueExample()
    ensures DocumentedType("number", "representing the current timestamp") == "integer"
    ensures ParseReturnType("number") == Some(NumberKind) && Getter(NumberKind) == "getNumber"
  {
    DocumentedTypeCases("number", "representing the current timestamp");
    assert !("of " <= "representing the current timestamp") by {
      assert "representing the current timestamp"[0] != "of "[0];
    }
  }

  /** A query declared to return `date` aborts generation with the error naming it. */
  lemma DateQueryExample(render: MethodUnit -> string)
    ensures DumpText(Specification([Method("getDate", "", false, "date", "", [])]), render)
         == Err(MalformedMethod("getDate"))
  {
  }
}
