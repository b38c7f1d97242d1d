/**
 * Reference meanings: which names an ES module declaration exports or imports (ECMA-262,
 * section 16.2.3 "Exports" and section 16.2.2 "Imports"), and which names a CommonJS
 * assignment publishes or a destructuring `require` binds. The lemmas of module Properties
 * compare the pass's output with these. The bindings of a destructuring `require` are
 * defined only for the property forms the pass converts (see `PropBinding`); defaults,
 * rest elements, nested patterns and numeric or computed keys bind names in JavaScript too,
 * but have no entry here.
 */
module Meaning {
  import opened Swc

  /** One exported name and the expression whose value importers observe under it. */
  datatype ExportEntry = ExportEntry(name: ModuleExportName, value: Expr)

  /** `e` with the name a function or class expression carries set to `name`. */
  function Renamed(e: Expr, name: string): Expr
  {
    match e
    case FnExpr(_, f) => FnExpr(Some(name), f)
    case ClassExpr(_, c) => ClassExpr(Some(name), c)
    case _ => e
  }

  /**
   * The names bound by the identifier declarators of an exported variable declaration, with
   * their initialisers (`undefined` when absent). Destructuring declarators are not listed.
   */
  function VarExports(decls: seq<VarDeclarator>): seq<ExportEntry>
    decreases |decls|
  {
    if |decls| == 0 then []
    else
      var head :=
        match decls[0].name
        case IdentPat(x) =>
          [ExportEntry(NameIdent(x), match decls[0].init case Some(e) => e case None => IdentExpr("undefined"))]
        case _ => [];
      head + VarExports(decls[1..])
  }

  /** `export function f`, `export class C`, `export const x = e`. */
  function DeclExports(decl: Decl): seq<ExportEntry>
  {
    match decl
    case FnDecl(id, f) => [ExportEntry(NameIdent(id), FnExpr(Some(id), f))]
    case ClassDecl(id, c) => [ExportEntry(NameIdent(id), ClassExpr(Some(id), c))]
    case VarDecl(_, decls) => VarExports(decls)
  }

  /**
   * `export { x as y }`: the alias (or the local name itself) is exported, and the value is
   * that of the local binding `x`.
   */
  function SpecExports(specs: seq<ExportSpecifier>): seq<ExportEntry>
    decreases |specs|
  {
    if |specs| == 0 then []
    else
      var head :=
        match specs[0]
        case ExportNamedSpec(NameIdent(x), exported) =>
          [ExportEntry(match exported case Some(n) => n case None => NameIdent(x), IdentExpr(x))]
        case _ => [];
      head + SpecExports(specs[1..])
  }

  /** The local exports a module declaration adds (re-exports from other modules are not listed). */
  function ExportTable(d: ModuleDecl): seq<ExportEntry>
  {
    match d
    case ExportDecl(decl) => DeclExports(decl)
    case NamedExport(specs, None) => SpecExports(specs)
    case ExportDefaultExpr(e) => [ExportEntry(NameIdent("default"), e)]
    case _ => []
  }

  /**
   * What `left = right` publishes in CommonJS: `module.exports = e` makes `e` the module's
   * default, `exports.P = e` makes `e` its member `P`; any other target publishes nothing.
   */
  function CommonJsExports(left: Pat, right: Expr): seq<ExportEntry>
  {
    if left == ExprPat(MemberExpr(IdentExpr("module"), IdentProp("exports"))) then
      [ExportEntry(NameIdent("default"), right)]
    else if left.ExprPat? && left.expr.MemberExpr? && left.expr.obj == IdentExpr("exports") &&
            left.expr.prop.IdentProp? then
      [ExportEntry(NameIdent(left.expr.prop.sym), right)]
    else []
  }

  /** Which member of the source module a local import binding stands for. */
  datatype ImportedName = DefaultName | Named(name: ModuleExportName) | Namespace

  datatype ImportEntry = ImportEntry(local: string, imported: ImportedName, from: Str)

  /** One import specifier: a named import without `as` imports the member of its own name. */
  function SpecifierImport(s: ImportSpecifier, from: Str): ImportEntry
  {
    match s
    case ImportNamed(local, None) => ImportEntry(local, Named(NameIdent(local)), from)
    case ImportNamed(local, Some(n)) => ImportEntry(local, Named(n), from)
    case ImportDefault(local) => ImportEntry(local, DefaultName, from)
    case ImportNamespace(local) => ImportEntry(local, Namespace, from)
  }

  /** The local bindings an import declaration introduces, in order. */
  function ImportTable(d: ModuleDecl): seq<ImportEntry>
  {
    match d
    case Import(specs, src) => seq(|specs|, k requires 0 <= k < |specs| => SpecifierImport(specs[k], src))
    case _ => []
  }

  /**
   * What one property of `const { ... } = require(from)` binds, for the simple forms only: a
   * shorthand without a default, or `key: identifier` with an identifier or string key.
   */
  function PropBinding(prop: ObjectPatProp, from: Str): Option<ImportEntry>
  {
    match prop
    case AssignProp(x, None) => Some(ImportEntry(x, Named(NameIdent(x)), from))
    case KeyValueProp(KeyIdent(k), IdentPat(v)) => Some(ImportEntry(v, Named(NameIdent(k)), from))
    case KeyValueProp(KeyStr(k), IdentPat(v)) => Some(ImportEntry(v, Named(NameStr(k)), from))
    case _ => None
  }

  /** The bindings of an object pattern, property by property; none if any property is not simple. */
  function PropBindings(props: seq<ObjectPatProp>, from: Str): (r: Option<seq<ImportEntry>>)
    ensures r.Some? <==> forall k :: 0 <= k < |props| ==> PropBinding(props[k], from).Some?
    ensures r.Some? ==> |r.value| == |props|
    ensures r.Some? ==> forall k :: 0 <= k < |props| ==> r.value[k] == PropBinding(props[k], from).value
    decreases |props|
  {
    if |props| == 0 then Some([])
    else
      match PropBinding(props[0], from)
      case None => None
      case Some(b) =>
        match PropBindings(props[1..], from)
        case None => None
        case Some(rest) => Some([b] + rest)
  }

  /**
   * What `const pat = require(from)` binds: the whole module value for an identifier, or
   * one member per property for a simple object pattern; none for any other pattern.
   */
  function RequireBindings(pat: Pat, from: Str): Option<seq<ImportEntry>>
  {
    match pat
    case IdentPat(x) => Some([ImportEntry(x, DefaultName, from)])
    case ObjectPat(props) => PropBindings(props, from)
    case _ => None
  }
}
