# Selenium browser class generator, modelled in Dafny

PHP Selenium Library ships a code generator, `BrowserDumper`. It reads a
specification of the Selenium Server protocol and writes the PHP source of the
`GeneratedBrowser` class. The specification is an ordered list of commands.
Each command has a name, a description, an action flag, a return type, a
return description and an ordered list of parameters. For every command the
dumper writes one PHP method:

- its documentation: the description, one `@param string $name description`
  line per parameter, and a `@return` line;
- its parameter list;
- its body, which forwards the call to the driver. An action calls
  `$this->driver->action(...)` and returns `$this`. A query returns the result
  of the driver's typed getter for its return type.

It hands each method to a `MethodBuilder`, which lays out the PHP text. It then
concatenates the methods inside a fixed class shell.

The project has six modules:

- `SeleniumSpecification`: the input, as datatypes `Parameter`, `Method` and
  `Specification`.
- `MethodBuilding`: the builder. It is a class with the four inputs it
  accumulates. Its rendering is a parameter `render`, because its layout rules
  are not part of this model.
- `PhpStrings`: the PHP primitives the dumper uses: `implode`, `strpos`, and
  the boolean value of a string.
- `BrowserDumper`: the generated text as functions of the specification
  (`MethodCode`, `DumpText`). It also holds the two loops of the source as
  methods, `DumpMethod` and `Dump`, each proved to produce exactly that text.
- `BrowserDumperProperties`: what that text is, proved for all inputs. This
  covers one block per method in order, the documentation layout, the
  signature, the call arguments, the action and query bodies, the return-type
  table, and the error for an unrecognised return type.
- `Wrappers`: `Option` and `Result`.

Three points of the code need a word:

- The action `@return` line says `Fluid interface`, as the code writes it.
- For a query whose return type is not `boolean`, `string`, `string[]` or
  `number`, the code never assigns the getter name
  (`BrowserDumper.php:110-125`). PHP raises an undefined-variable notice (a
  warning in PHP 8) and carries on: `dumpMethod` returns code containing
  `return $this->driver->("name");`, and `dump` returns the whole file with it.
  Here the model departs from the code. It does not invent a getter: it stops
  generation with `MalformedMethod(name)` and produces no text, so that no
  unusable call is emitted. The rows below that speak of this error describe
  the model's handling, not the PHP's.
- Whether the call gets `, ` and the signature depends on the PHP truth value
  of the signature string. In PHP both `""` and `"0"` are false.
  `SignatureTruthyIff` proves that this test means "the method has
  parameters", because a non-empty signature starts with `$`.

`dump` always gives the same output for the same specification. In the
model this holds by construction: `Dump` is proved equal to the function
`DumpText`.

## Model

| member | source | states |
|---|---|---|
| `BrowserDumper.Dump` | vendor/alexandresalome/php-selenium/src/Selenium/Specification/Dumper/BrowserDumper.php:44-78 | The loop that appends each method's code and a blank line to the preamble yields exactly `DumpText`. In the model, the first unrecognised method aborts the dump, and no partial text is returned. |
| `BrowserDumper.DumpMethod` | vendor/alexandresalome/php-selenium/src/Selenium/Specification/Dumper/BrowserDumper.php:87-137 | Accumulating the documentation, the signature and the builder's parameters parameter by parameter, choosing the body, then rendering yields exactly `MethodCode`. It fails exactly when the method is not recognised, and the error names the method. |
| `BrowserDumper.MethodCodeOkIff` | vendor/alexandresalome/php-selenium/src/Selenium/Specification/Dumper/BrowserDumper.php:102-130 | A method's code exists exactly when it is an action or a query with a recognised return type. Otherwise the result is `MalformedMethod(name)`. |
| `BrowserDumper.BlocksAppend` | vendor/alexandresalome/php-selenium/src/Selenium/Specification/Dumper/BrowserDumper.php:70-72 | The blocks of a concatenation of method lists are the blocks of the first list followed by those of the second. The first error wins. |
| `BrowserDumper.AppendBlock` | vendor/alexandresalome/php-selenium/src/Selenium/Specification/Dumper/BrowserDumper.php:71 | One loop step, appending `code . "\n\n"`, keeps the accumulated text equal to the preamble followed by the blocks of the methods done so far. |
| `BrowserDumper.BlocksErrAt` | vendor/alexandresalome/php-selenium/src/Selenium/Specification/Dumper/BrowserDumper.php:70-72 | A failing method after a successful prefix makes the whole sequence of blocks fail with that method's error. |
| `BrowserDumper.ParametersStep` | vendor/alexandresalome/php-selenium/src/Selenium/Specification/Dumper/BrowserDumper.php:94-98 | One more parameter appends its bare name to the builder's names, its `$` name to the signature pieces and its `@param` line to the documentation. |
| `BrowserDumper.ParamDocsAppend` | vendor/alexandresalome/php-selenium/src/Selenium/Specification/Dumper/BrowserDumper.php:94-98 | The `@param` lines of two parameter lists are those of the first list followed by those of the second. |
| `BrowserDumperProperties.DumpOkIff` | vendor/alexandresalome/php-selenium/src/Selenium/Specification/Dumper/BrowserDumper.php:70-72 | In the model, the dump succeeds exactly when every method of the specification is recognised. |
| `BrowserDumperProperties.DumpFailsOnFirstMalformed` | vendor/alexandresalome/php-selenium/src/Selenium/Specification/Dumper/BrowserDumper.php:110-125 | In the model, if method `i` is the first unrecognised one, the dump fails with the error naming method `i`. |
| `BrowserDumperProperties.BlocksOkIff` | vendor/alexandresalome/php-selenium/src/Selenium/Specification/Dumper/BrowserDumper.php:70-72 | The blocks of a method list exist exactly when every method's code exists. |
| `BrowserDumperProperties.BlocksLayout` | vendor/alexandresalome/php-selenium/src/Selenium/Specification/Dumper/BrowserDumper.php:70-72 | When each method generates `codes[i]`, the blocks are each `codes[i]` followed by `"\n\n"`, in list order. |
| `BrowserDumperProperties.DumpLayout` | vendor/alexandresalome/php-selenium/src/Selenium/Specification/Dumper/BrowserDumper.php:46-77 | The file is the fixed preamble, then one block per method (its code and `"\n\n"`) in specification order, then `"}\n"`. |
| `BrowserDumperProperties.DocumentationLayout` | vendor/alexandresalome/php-selenium/src/Selenium/Specification/Dumper/BrowserDumper.php:91-97 | The documentation is the description and `"\n\n"`, then the `@param` lines of the earlier parameters, then parameter `i`'s line `@param string $name description` and `"\n\n"`, then the later parameters' lines, then the `@return` line. |
| `BrowserDumperProperties.ActionDocumentationEnd` | vendor/alexandresalome/php-selenium/src/Selenium/Specification/Dumper/BrowserDumper.php:103 | An action's documentation ends with `@return \Selenium\Browser Fluid interface`. |
| `BrowserDumperProperties.SignatureStart` | vendor/alexandresalome/php-selenium/src/Selenium/Specification/Dumper/BrowserDumper.php:97-100 | The signature is empty with no parameters. Otherwise it is non-empty and starts with `$`. |
| `BrowserDumperProperties.SignatureTruthyIff` | vendor/alexandresalome/php-selenium/src/Selenium/Specification/Dumper/BrowserDumper.php:105 | The PHP truth value of the signature is true exactly when the method has parameters. |
| `BrowserDumperProperties.SignatureSnoc` | vendor/alexandresalome/php-selenium/src/Selenium/Specification/Dumper/BrowserDumper.php:97-100 | Adding a parameter at the end adds `$name` at the end of the signature, preceded by `", "` unless it is the first. |
| `BrowserDumperProperties.BuilderParameters` | vendor/alexandresalome/php-selenium/src/Selenium/Specification/Dumper/BrowserDumper.php:95-97 | The builder receives the method's name and the bare parameter names in parameter order. Signature piece `i` is `$` followed by the builder's name `i`. |
| `BrowserDumperProperties.ActionBody` | vendor/alexandresalome/php-selenium/src/Selenium/Specification/Dumper/BrowserDumper.php:105-107 | An action's body is `$this->driver->action` applied to `("name")` with no parameters, or to `("name", $p1, ..., $pn)` otherwise. A blank line and `return $this;` follow. |
| `BrowserDumperProperties.ActionIgnoresReturnFields` | vendor/alexandresalome/php-selenium/src/Selenium/Specification/Dumper/BrowserDumper.php:102-108 | An action's generated code does not depend on its return type or return description. |
| `BrowserDumperProperties.QueryBody` | vendor/alexandresalome/php-selenium/src/Selenium/Specification/Dumper/BrowserDumper.php:129 | A recognised query's body is `return $this->driver->` followed by its getter, the same call arguments as an action, and `;`. |
| `BrowserDumperProperties.UnrecognisedQueryFails` | vendor/alexandresalome/php-selenium/src/Selenium/Specification/Dumper/BrowserDumper.php:110-125 | A query whose return type is none of the four recognised strings yields the model's error `MalformedMethod(name)`, never a body. |
| `BrowserDumperProperties.ParseReturnTypeIff` | vendor/alexandresalome/php-selenium/src/Selenium/Specification/Dumper/BrowserDumper.php:112-118 | The dispatch maps a declared type to a kind exactly when the type is that kind's spelling (`boolean`, `string`, `string[]`, `number`). |
| `BrowserDumperProperties.GetterInjective` | vendor/alexandresalome/php-selenium/src/Selenium/Specification/Dumper/BrowserDumper.php:112-119 | Different recognised return types use different getters. |
| `BrowserDumperProperties.DocumentedTypeCases` | vendor/alexandresalome/php-selenium/src/Selenium/Specification/Dumper/BrowserDumper.php:118-127 | `number` is documented as `integer number` when the return description starts with `"of "` and as `integer` otherwise. The other recognised types are documented as declared. |
| `BrowserDumperProperties.ClickBody` | vendor/alexandresalome/php-selenium/src/Selenium/Specification/Dumper/BrowserDumper.php:105-107 | For the action `click(locator)`, the body is `$this->driver->action("click", $locator);`, a blank line, and `return $this;`. |
| `BrowserDumperProperties.ClickParameterDocs` | vendor/alexandresalome/php-selenium/src/Selenium/Specification/Dumper/BrowserDumper.php:96 | For `click(locator)`, the parameter documentation is `@param string $locator an element locator` and a blank line. |
| `BrowserDumperProperties.CountExample` | vendor/alexandresalome/php-selenium/src/Selenium/Specification/Dumper/BrowserDumper.php:118-124 | A `number` query described as `of open windows` is documented as `integer number`. |
| `BrowserDumperProperties.NumberValueExample` | vendor/alexandresalome/php-selenium/src/Selenium/Specification/Dumper/BrowserDumper.php:118-124 | A `number` query described as `representing the current timestamp` is documented as `integer`. It is read with `getNumber`, like a count. |
| `BrowserDumperProperties.DateQueryExample` | vendor/alexandresalome/php-selenium/src/Selenium/Specification/Dumper/BrowserDumper.php:110-125 | A specification with a query declared to return `date` dumps, in the model, to the error naming that query. |
| `PhpStrings.StrPos` | vendor/alexandresalome/php-selenium/src/Selenium/Specification/Dumper/BrowserDumper.php:122 | `strpos` returns the position of the first occurrence of the needle, or nothing when the needle does not occur. |
| `PhpStrings.StrPosZeroIffPrefix` | vendor/alexandresalome/php-selenium/src/Selenium/Specification/Dumper/BrowserDumper.php:122 | `0 === strpos(d, 'of ')` holds exactly when `d` starts with `of `. |
| `PhpStrings.ImplodeSnoc` | vendor/alexandresalome/php-selenium/src/Selenium/Specification/Dumper/BrowserDumper.php:100 | Appending a piece to a non-empty list appends the glue and the piece to the imploded string. |
| `MethodBuilding.MethodBuilder.constructor` | vendor/alexandresalome/php-selenium/src/Selenium/Specification/Dumper/BrowserDumper.php:89 | A new builder has no name, no parameters, no documentation and no body. |
| `MethodBuilding.MethodBuilder.AddParameter` | vendor/alexandresalome/php-selenium/src/Selenium/Specification/Dumper/BrowserDumper.php:95 | Appends one parameter name and leaves the other inputs unchanged. |
| `MethodBuilding.MethodBuilder.SetName` | vendor/alexandresalome/php-selenium/src/Selenium/Specification/Dumper/BrowserDumper.php:132 | Replaces the name only. |
| `MethodBuilding.MethodBuilder.SetBody` | vendor/alexandresalome/php-selenium/src/Selenium/Specification/Dumper/BrowserDumper.php:133 | Replaces the body only. |
| `MethodBuilding.MethodBuilder.SetDocumentation` | vendor/alexandresalome/php-selenium/src/Selenium/Specification/Dumper/BrowserDumper.php:134 | Replaces the documentation only. |
| `MethodBuilding.MethodBuilder.BuildCode` | vendor/alexandresalome/php-selenium/src/Selenium/Specification/Dumper/BrowserDumper.php:136 | The rendered method depends only on the four accumulated inputs. |

## Left out

- BrowserDumper.DumpMethod: for a query with an unrecognised return type it fails with `MalformedMethod(name)`, where the PHP emits `@return <type> <description>` and `return $this->driver->("name"...);` after an undefined-variable warning. A call with an empty method name is not usable code, so the model reports an error instead.
- BrowserDumper.Dump: for the same reason it fails on the first such method, where the PHP returns the whole file containing that broken method.

- `MethodBuilder`'s source is not part of this model. Its layout of the signature line, the doc comment and the braces is the opaque parameter `render`. Its accumulating behaviour is assumed: it starts empty, `addParameter` appends, and the setters replace.
- Loading the `Specification` and its `Method` and `Parameter` objects is not modelled. The `Selenium\Specification` classes are not part of this model, and the specification is taken as an immutable value. An unset return type is the empty string, which PHP's `===` comparisons and concatenation treat the same way as `null`.
- The `BrowserDumper` constructor only stores the specification. The model passes the specification to `Dump` as a parameter instead.
- Writing the generated file and the Selenium driver that the generated code calls are I/O and foreign calls, outside this class.
- The preamble is a fixed string constant. Its content is not reasoned about.
- PHP strings are byte strings. The model uses `seq<char>`, and no operation here depends on the encoding.
