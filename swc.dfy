/**
 * The part of the swc ECMAScript syntax tree that the CommonJS-to-ES-module pass reads or
 * builds. Spans are dropped; identifiers are their names. Node kinds the pass never looks
 * into are kept only as far as they must be carried over unchanged.
 */
module Swc {

  datatype Option<+T> = None | Some(value: T)

  /** A string literal: its cooked value and, when the parser kept it, its raw text. */
  datatype Str = Str(value: string, raw: Option<string>)

  datatype Lit = StrLit(s: Str) | BoolLit(b: bool) | NullLit | NumLit(n: int)

  /** The property part of `obj.prop`, `obj.#prop` or `obj[expr]`. */
  datatype MemberProp = IdentProp(sym: string) | PrivateName(name: string) | ComputedProp(expr: Expr)

  datatype Callee = SuperCallee | ImportCallee | ExprCallee(expr: Expr)

  /** One call argument; `spread` is true for `...expr`. */
  datatype ExprOrSpread = ExprOrSpread(spread: bool, expr: Expr)

  /** `=` or one of the compound operators (`+=`, `||=`, ...). */
  datatype AssignOp = Assign | CompoundAssign(operator: string)

  /** The left side of an assignment: a binding pattern or an expression. */
  datatype PatOrExpr = PatTarget(pat: Pat) | ExprTarget(expr: Expr)

  datatype Expr =
    | FnExpr(ident: Option<string>, func: Function)
    | ClassExpr(ident: Option<string>, cls: Class)
    | IdentExpr(sym: string)
    | MemberExpr(obj: Expr, prop: MemberProp)
    | CallExpr(callee: Callee, args: seq<ExprOrSpread>)
    | AssignExpr(op: AssignOp, left: PatOrExpr, right: Expr)
    | LitExpr(lit: Lit)
    | OtherExpr(kind: string)  // arrows, templates, ...: never inspected

  /** A function's parameters and body, moved unchanged by the pass. */
  datatype Function = Function(params: seq<Pat>, body: seq<Stmt>)

  /** A class's heritage and members, moved unchanged by the pass. */
  datatype Class = Class(superClass: Option<Expr>, members: seq<ClassMember>)

  datatype ClassMember =
    | ClassMethod(key: PropName, func: Function, isStatic: bool)
    | ClassProp(key: PropName, value: Option<Expr>, isStatic: bool)

  datatype PropName = KeyIdent(sym: string) | KeyStr(s: Str) | KeyNum(n: int) | KeyComputed(expr: Expr)

  datatype Pat =
    | IdentPat(id: string)
    | ArrayPat(elems: seq<Option<Pat>>)
    | RestPat(arg: Pat)
    | ObjectPat(props: seq<ObjectPatProp>)
    | AssignPat(left: Pat, right: Expr)
    | InvalidPat
    | ExprPat(expr: Expr)

  /** One property of an object pattern: `k: pat`, shorthand `a` / `a = dflt`, or `...rest`. */
  datatype ObjectPatProp =
    | KeyValueProp(key: PropName, value: Pat)
    | AssignProp(id: string, dflt: Option<Expr>)
    | RestProp(arg: Pat)

  datatype VarDeclKind = Var | Let | Const

  datatype VarDeclarator = VarDeclarator(name: Pat, init: Option<Expr>)

  datatype Decl =
    | FnDecl(ident: string, func: Function)
    | ClassDecl(ident: string, cls: Class)
    | VarDecl(kind: VarDeclKind, decls: seq<VarDeclarator>)

  datatype Stmt = ExprStmt(expr: Expr) | DeclStmt(decl: Decl) | OtherStmt(kind: string)

  /** A name in an import or export list: `foo` or `"foo"`. */
  datatype ModuleExportName = NameIdent(sym: string) | NameStr(s: Str)

  datatype ImportSpecifier =
    | ImportNamed(local: string, imported: Option<ModuleExportName>)
    | ImportDefault(local: string)
    | ImportNamespace(local: string)

  datatype ExportSpecifier =
    | ExportNamedSpec(orig: ModuleExportName, exported: Option<ModuleExportName>)
    | ExportNamespaceSpec(name: ModuleExportName)

  datatype ModuleDecl =
    | Import(specifiers: seq<ImportSpecifier>, src: Str)
    | ExportDecl(decl: Decl)
    | NamedExport(named: seq<ExportSpecifier>, from: Option<Str>)
    | ExportDefaultExpr(expr: Expr)
    | OtherModuleDecl(kind: string)  // `export * from`, TypeScript forms, ...

  /** A top-level item of a module body. */
  datatype ModuleItem = ModuleDeclItem(decl: ModuleDecl) | StmtItem(stmt: Stmt)
}
