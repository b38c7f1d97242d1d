/**
 * The snapshot tests of src/cjs_to_esm.rs, as the trees they parse to and the trees their
 * printed output shows, and one failure case (an array pattern). Function and class
 * bodies, which the pass moves without looking at them, are left as parameters.
 */
module Scenarios {
  import opened Swc
  import opened Rewriting
  import opened Properties

  function ExportsDot(p: string): Pat { ExprPat(MemberExpr(IdentExpr("exports"), IdentProp(p))) }

  function ModuleExports(): Pat { ExprPat(MemberExpr(IdentExpr("module"), IdentProp("exports"))) }

  function Require(path: Str): Expr { CallExpr(ExprCallee(IdentExpr("require")), [ExprOrSpread(false, LitExpr(StrLit(path)))]) }

  /** `exports.foo = function foo () {...}` prints as `export function foo() {...}`. */
  lemma FunctionExport(f: Function)
    ensures Rewrite(AssignItem(ExportsDot("foo"), FnExpr(Some("foo"), f))) == Replace(ExportDecl(FnDecl("foo", f)))
  {
  }

  /** `exports.Foo = class {...}` prints as `export class Foo {...}`. */
  lemma ClassExport(c: Class)
    ensures Rewrite(AssignItem(ExportsDot("Foo"), ClassExpr(None, c))) == Replace(ExportDecl(ClassDecl("Foo", c)))
  {
  }

  /** `exports.foo = bar` prints as `export { foo as bar }`. */
  lemma IdentifierExport()
    ensures Rewrite(AssignItem(ExportsDot("foo"), IdentExpr("bar")))
         == Replace(NamedExport([ExportNamedSpec(NameIdent("foo"), Some(NameIdent("bar")))], None))
  {
  }

  /** `exports.foo = "bar"` prints as `export const foo = "bar"`. */
  lemma ExpressionExport(bar: Str)
    ensures var e := LitExpr(StrLit(bar));
      Rewrite(AssignItem(ExportsDot("foo"), e))
      == Replace(ExportDecl(VarDecl(Const, [VarDeclarator(IdentPat("foo"), Some(e))])))
  {
  }

  /** `module.exports = function foo () {...}` prints as `export default function foo() {...}`. */
  lemma DefaultFunctionExport(f: Function)
    ensures Rewrite(AssignItem(ModuleExports(), FnExpr(Some("foo"), f))) == Replace(ExportDefaultExpr(FnExpr(Some("foo"), f)))
  {
  }

  /** `module.exports = class Foo {...}` prints as `export default class Foo {...}`. */
  lemma DefaultClassExport(c: Class)
    ensures Rewrite(AssignItem(ModuleExports(), ClassExpr(Some("Foo"), c))) == Replace(ExportDefaultExpr(ClassExpr(Some("Foo"), c)))
  {
  }

  /** `const foo = require("./foo")` prints as `import foo from "./foo"`. */
  lemma DefaultImport(path: Str)
    ensures Rewrite(VarItem(Const, IdentPat("foo"), Require(path), [])) == Replace(Import([ImportDefault("foo")], path))
  {
  }

  /** `const {foo, bar: baz} = require("./foo-bar")` prints as `import { foo, bar as baz } from "./foo-bar"`. */
  lemma NamedImport(path: Str)
    ensures var pat := ObjectPat([AssignProp("foo", None), KeyValueProp(KeyIdent("bar"), IdentPat("baz"))]);
      Rewrite(VarItem(Const, pat, Require(path), []))
      == Replace(Import([ImportNamed("foo", None), ImportNamed("baz", Some(NameIdent("bar")))], path))
  {
    var props := [AssignProp("foo", None), KeyValueProp(KeyIdent("bar"), IdentPat("baz"))];
    var specs := [ImportNamed("foo", None), ImportNamed("baz", Some(NameIdent("bar")))];
    assert ImportSpecifierFor(props[0]) == Ok(specs[0]);
    assert ImportSpecifierFor(props[1]) == Ok(specs[1]);
    assert NamedImportSpecifiers(props).value == specs;
  }

  /** `const [a, b] = require("./x")` stops the pass with the array pattern as the unsupported binding. */
  lemma ArrayPatternFails(path: Str)
    ensures var pat := ArrayPat([Some(IdentPat("a")), Some(IdentPat("b"))]);
      Rewrite(VarItem(Const, pat, Require(path), [])) == Fail(UnsupportedBinding(pat))
  {
  }
}
