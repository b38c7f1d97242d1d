# cjs_to_esm in Dafny

This project models `cjs_to_esm`, the pass that rewrites CommonJS idioms into native module declarations. It takes a parsed module and visits its top-level items in order. Each item it recognises is overwritten, in its own slot, with an ES module declaration (ECMA-262, section 16.2.2 "Imports" and section 16.2.3 "Exports"):

| CommonJS item | replacement |
|---|---|
| `module.exports = e` | `export default e` |
| `exports.P = function ...` / `class ...` | `export function P ...` / `export class P ...` |
| `exports.P = I` | `export { P as I }` |
| `exports.P = e` (anything else) | `export const P = e` |
| `x = require("s")` | `import x from "s"` |
| `const x = require("s")` | `import x from "s"` |
| `const {a, k: v} = require("s")` | `import { a, k as v } from "s"` |

The rules are tried in that priority order, first `module.exports`, then `exports.P`, then `require`. Every other item is left as it is.

The source's `panic!` and `todo!` calls, and its unchecked `args[0]` and `decls[0]`, become an explicit `Fail` step. When an item fails, the pass stops there. Items before it have been rewritten; the failing item and all later items are untouched. This is the state a panic leaves behind.

Files:

- `swc.dfy`, module `Swc`: the part of the swc syntax tree that the pass reads or builds. Names are strings and spans are dropped.
- `recognizers.dfy`, module `Recognizers`: `is_module_exports`, `is_exports_member` and `is_require_call`.
- `rewriting.dfy`, module `Rewriting`: what happens to one item (`Rewrite`) and to a whole body (`RunPass`), as pure functions.
- `transform.dfy`, module `Transform`: the pass itself, in imperative form.
  - A `Module` class whose `body` is an `array`.
  - `CjsToEsm`, the in-place loop.
  - `ConvertItem`, the `if let` chain for one item.
  - `CollectNamedImports`, the loop that pushes one specifier per object-pattern property.
  - Each method is proved to compute its function from `Rewriting`.
- `meaning.dfy`, module `Meaning`: reference meanings for the pass's output.
  - What an ES export or import declaration exports or binds.
  - What a CommonJS assignment publishes.
  - What a destructuring `require` binds. This is defined only when every property is a shorthand without a default, or `key: identifier` with an identifier or string key. Those are exactly the forms the pass converts, so the comparison covers the bindings the pass produces, not which patterns it accepts.
- `properties.dfy` and `scenarios.dfy`: the pass's guarantees, and the snapshot tests.

Behaviour of the code that the model keeps:

- The `require` recogniser does not check the argument count. Extra arguments are ignored. `require()` with no arguments indexes `args[0]` and panics.
- A first argument that is a spread or not a string literal panics in both forms. The pass stops at that item, which stays as it was; it is not skipped.
- The first failure ends the pass. There is no mode that skips failing items.
- The declaration kind (`var`, `let`, `const`) is not checked. `let x = require("s")` is rewritten too.
- In the assignment form, an object pattern on the left is a failure (`todo!()`). So is any pattern other than an identifier, for example `a.b = require("s")`.

## Model

| member | source | states |
|---|---|---|
| `Recognizers.IsModuleExports` | src/cjs_to_esm.rs:268-284 | true exactly when the target is the non-computed member `module.exports` |
| `Recognizers.IsExportsMember` | src/cjs_to_esm.rs:286-306 | yields a name exactly when the target is non-computed `exports.P` with identifier property, and that name is `P` |
| `Recognizers.IsRequireCall` | src/cjs_to_esm.rs:308-322 | true exactly when the statement is an expression statement calling the bare identifier `require`, whatever the arguments |
| `Recognizers.ExportTargetsDisjoint` | src/cjs_to_esm.rs:268-306 | no target is both `module.exports` and `exports.P` |
| `Rewriting.RequireSource` | src/cjs_to_esm.rs:98-108 | the source is the first argument when it is a non-spread string literal; an empty list fails as a missing argument, anything else as a non-string argument |
| `Rewriting.ImportSpecifierFor` | src/cjs_to_esm.rs:195-241 | a property the pass accepts always yields a named import, never a default or namespace one; every other property is the failure naming it |
| `Rewriting.NamedImportSpecifiers` | src/cjs_to_esm.rs:190-243 | succeeds exactly when every property is supported; then one specifier per property, in declared order; otherwise the failure of the first unsupported property |
| `Rewriting.StopsAtFailure` | src/cjs_to_esm.rs:193-242 | once a prefix of the properties fails, the whole list fails with the same failure |
| `Rewriting.RunPassSlots` | src/cjs_to_esm.rs:5-266 | the pass keeps the body's length; with no failing item every slot holds its item's rewrite; otherwise it stops at the first failing item, slots before it rewritten and it and later slots untouched |
| `Transform.CollectNamedImports` | src/cjs_to_esm.rs:191-243 | the push loop builds exactly `NamedImportSpecifiers` of the properties |
| `Transform.ConvertItem` | src/cjs_to_esm.rs:7-263 | the `if let` chain for one item computes exactly `Rewrite` of that item |
| `Transform.CjsToEsm` | src/cjs_to_esm.rs:5-266 | the in-place loop leaves the body array holding `RunPass` of its old contents and returns that pass's outcome |
| `Properties.ModuleDeclsKept` | src/cjs_to_esm.rs:7 | module declarations are never changed |
| `Properties.CompoundAssignKept` | src/cjs_to_esm.rs:8-9 | an assignment with an operator other than `=` is never changed, whatever its target |
| `Properties.NonRequireAssignKept` | src/cjs_to_esm.rs:87-95 | an assignment to a target other than the exports forms, from a call whose callee is not `require`, is never changed |
| `Properties.NonRequireDeclKept` | src/cjs_to_esm.rs:147-161 | a declaration whose first declarator has no initialiser, or one that is not a `require` call, is never changed; a `require` in a later declarator is never converted |
| `Properties.BareRequireKept` | src/cjs_to_esm.rs:308-322 | a statement that `is_require_call` accepts is never changed |
| `Properties.AppliedIsFixed` | src/cjs_to_esm.rs:5-16 | only statements are replaced, always by module declarations, and a replaced or kept item is kept by a second look |
| `Properties.DefaultExportMeaning` | src/cjs_to_esm.rs:15-23 | `module.exports = e` becomes `export default e` with `e` unchanged, exporting exactly what the CommonJS assignment publishes |
| `Properties.NamedExportMeaning` | src/cjs_to_esm.rs:25-83 | `exports.P = rhs` becomes one export. For non-identifier `rhs` it exports `rhs` under `P`, with a function or class renamed `P`. For an identifier `I` it exports local `P` under the name `I` |
| `Properties.ExportsBeforeRequire` | src/cjs_to_esm.rs:15-95 | `exports.P = require(...)` becomes `export const P = require(...)`, not an import |
| `Properties.DeclImportFailsExactly` | src/cjs_to_esm.rs:190-241 | an object pattern fails exactly when some property is not a shorthand without default or `key: identifier` with an identifier or string key, and the failure names the first such property; the reference bindings are defined for the same patterns |
| `Properties.ShorthandImportsUnaliased` | src/cjs_to_esm.rs:196-209 | a shorthand property without default imports the member of its own name with no alias; a pattern of only such properties becomes `import { a, b, ... }` in the same order |
| `Properties.KeyValueImportsAliased` | src/cjs_to_esm.rs:210-239 | `k: v` with an identifier or string key imports member `k` as local `v`, always with an explicit alias, so `{a: a}` and `{a}` give different specifiers |
| `Properties.DeclImportMeaning` | src/cjs_to_esm.rs:170-255 | for an identifier, or an object pattern whose every property is a shorthand without default or `key: identifier` with an identifier or string key, the import exists, comes from the same source, and binds the same locals to the same members, in order; for any other pattern it fails |
| `Properties.RequireDeclMeaning` | src/cjs_to_esm.rs:147-189 | a declaration from `require("s")` becomes an import of `"s"` with the destructuring's bindings, or fails; declarators after the first are not consulted and are dropped |
| `Properties.RequireAssignMeaning` | src/cjs_to_esm.rs:87-137 | `x = require("s")` becomes a default import of `x` from `"s"`; any other target pattern, an object pattern included, fails |
| `Properties.MalformedRequireFails` | src/cjs_to_esm.rs:162-168 | a `require` without a string-literal first argument fails in the assignment form and in a declaration of any kind (`var`, `let`, `const`), before the pattern is looked at; no arguments at all is a missing-argument failure |
| `Properties.SecondPassChangesNothing` | src/cjs_to_esm.rs:5-147 | after a pass that finishes, a second pass finishes and leaves the body as it is |
| `Scenarios.FunctionExport` | src/cjs_to_esm.rs:389-398 | `exports.foo = function foo ...` becomes `export function foo` with the same function |
| `Scenarios.ClassExport` | src/cjs_to_esm.rs:401-410 | `exports.Foo = class ...` becomes `export class Foo` with the same class |
| `Scenarios.IdentifierExport` | src/cjs_to_esm.rs:413-419 | `exports.foo = bar` becomes `export { foo as bar }` |
| `Scenarios.ExpressionExport` | src/cjs_to_esm.rs:422-428 | `exports.foo = "bar"` becomes `export const foo = "bar"` |
| `Scenarios.DefaultFunctionExport` | src/cjs_to_esm.rs:431-440 | `module.exports = function foo ...` becomes `export default function foo ...` unchanged |
| `Scenarios.DefaultClassExport` | src/cjs_to_esm.rs:443-460 | `module.exports = class Foo ...` becomes `export default class Foo ...` unchanged |
| `Scenarios.DefaultImport` | src/cjs_to_esm.rs:463-469 | `const foo = require("./foo")` becomes `import foo from "./foo"` |
| `Scenarios.NamedImport` | src/cjs_to_esm.rs:472-478 | `const {foo, bar: baz} = require("./foo-bar")` becomes `import { foo, bar as baz } from "./foo-bar"` |
| `Scenarios.ArrayPatternFails` | src/cjs_to_esm.rs:188 | `const [a, b] = require("./x")` is a failure naming the array pattern |

## Left out

- The `eprintln!` debug output at src/cjs_to_esm.rs:85, 93 and 100 writes to standard error and has no effect on the tree.
- Spans, `DUMMY_SP`, `Ident.optional`, type annotations, and the flags `declare`, `definite`, `is_type_only`, `type_only` and `with` are dropped. The pass sets them to fixed values or copies them, except that when it builds an import it discards the binding's type annotation (`const foo: Foo = require("./foo")` loses `: Foo`), the object pattern's type annotation, the type arguments of `require<T>(...)` and the declarator's `definite` flag (src/cjs_to_esm.rs:87, 154, 178 and 190).
- Number literals hold an unbounded integer instead of an `f64`. The pass never looks at their value.
- Panics are modelled as an abort that the caller sees as `Aborted(index, failure)`. Unwinding is not modelled, and neither is what a caller that catches the panic could do with the module afterwards.
- The `parse`, `print` and `transform` test helpers (src/cjs_to_esm.rs:338-386) wrap the swc parser and code generator. The scenarios state the tree each snapshot's printed text shows; the printed text itself is not modelled.
- src/parser.rs, src/ast.rs, src/v8_test.rs, src/main.rs, linter/linter.js and index.js are parser glue, serialisation types, and JS-engine embedding and lint glue. They are not part of this model.
- `Meaning.VarExports` lists only identifier declarators; `Meaning.ExportTable` lists only local exports. Destructuring exports and re-exports from another module are never produced by the pass.
