/** The pure recognisers of src/cjs_to_esm.rs: nested matches over one node, no mutation. */
module Recognizers {
  import opened Swc

  /** Is the assignment target exactly `module.exports` (non-computed)? */
  function IsModuleExports(pat: Pat): (r: bool)
    ensures r <==> pat == ExprPat(MemberExpr(IdentExpr("module"), IdentProp("exports")))
  {
    match pat
    case ExprPat(expr) =>
      (match expr
       case MemberExpr(obj, prop) =>
         (match obj
          case IdentExpr(o) =>
            (match prop
             case IdentProp(p) => o == "module" && p == "exports"
             case _ => false)
          case _ => false)
       case _ => false)
    case _ => false
  }

  /** For a target `exports.P` (non-computed), the property name `P`; otherwise nothing. */
  function IsExportsMember(pat: Pat): (r: Option<string>)
    ensures r.Some? <==>
      pat.ExprPat? && pat.expr.MemberExpr? && pat.expr.obj == IdentExpr("exports") && pat.expr.prop.IdentProp?
    ensures r.Some? ==> pat == ExprPat(MemberExpr(IdentExpr("exports"), IdentProp(r.value)))
  {
    match pat
    case ExprPat(expr) =>
      (match expr
       case MemberExpr(obj, prop) =>
         (match obj
          case IdentExpr(o) =>
            (match prop
             case IdentProp(p) => if o == "exports" then Some(p) else None
             case _ => None)
          case _ => None)
       case _ => None)
    case _ => None
  }

  /** Is the statement a bare call `require(...)`, whatever its arguments? */
  function IsRequireCall(stmt: Stmt): (r: bool)
    ensures r <==> stmt.ExprStmt? && stmt.expr.CallExpr? && stmt.expr.callee == ExprCallee(IdentExpr("require"))
  {
    match stmt
    case ExprStmt(expr) =>
      (match expr
       case CallExpr(callee, _) =>
         (match callee
          case ExprCallee(c) =>
            (match c
             case IdentExpr(sym) => sym == "require"
             case _ => false)
          case _ => false)
       case _ => false)
    case _ => false
  }

  /** No target is both `module.exports` and `exports.P`. */
  lemma ExportTargetsDisjoint(pat: Pat)
    ensures !(IsModuleExports(pat) && IsExportsMember(pat).Some?)
  {
  }
}
