/**
 * What the pass promises: which items it leaves alone, the priority of its rules, what the
 * module declarations it builds export or import compared with the CommonJS idioms they
 * replace, its failure cases, and that a second pass after a successful one changes nothing.
 */
module Properties {
  import opened Swc
  import opened Recognizers
  import opened Rewriting
  import opened Meaning

  /** The statement `left = right;` (plain `=`, pattern target). */
  function AssignItem(left: Pat, right: Expr): ModuleItem
  {
    StmtItem(ExprStmt(AssignExpr(Assign, PatTarget(left), right)))
  }

  /** The statement `kind pat = init, rest...;`. */
  function VarItem(kind: VarDeclKind, pat: Pat, init: Expr, rest: seq<VarDeclarator>): ModuleItem
  {
    StmtItem(DeclStmt(VarDecl(kind, [VarDeclarator(pat, Some(init))] + rest)))
  }

  // ---- Items the pass never changes ------------------------------------------------------

  /** Module declarations (native `import`/`export`) are never inspected. */
  lemma ModuleDeclsKept(d: ModuleDecl)
    ensures Rewrite(ModuleDeclItem(d)) == Keep && Applied(ModuleDeclItem(d)) == ModuleDeclItem(d)
  {
  }

  /** `x op= e` with a compound operator is left alone, even on `exports.P` or `module.exports`. */
  lemma CompoundAssignKept(op: AssignOp, left: PatOrExpr, right: Expr)
    requires op != Assign
    ensures Rewrite(StmtItem(ExprStmt(AssignExpr(op, left, right)))) == Keep
  {
  }

  /** An assignment to a plain target from a call of anything but `require` is left alone. */
  lemma NonRequireAssignKept(left: Pat, right: Expr)
    requires !IsModuleExports(left) && IsExportsMember(left).None?
    requires !CallsRequire(right)
    ensures Rewrite(AssignItem(left, right)) == Keep
  {
  }

  /**
   * A declaration whose first declarator has no initialiser, or one that is not a `require`
   * call, is left alone, whatever the later declarators hold: `let a, b = require("s")` is
   * never converted.
   */
  lemma NonRequireDeclKept(kind: VarDeclKind, pat: Pat, init: Option<Expr>, rest: seq<VarDeclarator>)
    requires init.None? || !CallsRequire(init.value)
    ensures Rewrite(StmtItem(DeclStmt(VarDecl(kind, [VarDeclarator(pat, init)] + rest)))) == Keep
  {
  }

  /** A bare `require(...)` statement (what `is_require_call` recognises) is left alone. */
  lemma BareRequireKept(stmt: Stmt)
    requires IsRequireCall(stmt)
    ensures Rewrite(StmtItem(stmt)) == Keep
  {
  }

  /** Only statements are ever replaced, and only by module declarations, which no rule inspects. */
  lemma AppliedIsFixed(item: ModuleItem)
    requires !Rewrite(item).Fail?
    ensures Rewrite(item).Replace? ==> item.StmtItem? && Applied(item).ModuleDeclItem?
    ensures Rewrite(Applied(item)) == Keep
  {
  }

  // ---- Exports ---------------------------------------------------------------------------

  /**
   * `module.exports = e` becomes `export default e` with `e` untouched (a function or class
   * keeps its own name), and exports exactly what the CommonJS assignment publishes.
   */
  lemma DefaultExportMeaning(left: Pat, right: Expr)
    requires IsModuleExports(left)
    ensures Rewrite(AssignItem(left, right)) == Replace(ExportDefaultExpr(right))
    ensures ExportTable(ExportDefaultExpr(right)) == CommonJsExports(left, right)
  {
  }

  /**
   * `exports.P = rhs` becomes a single export chosen by the shape of `rhs`, whatever `rhs` is
   * (a `require` call included: this rule runs before the import rules). For every shape but
   * an identifier it exports exactly what the CommonJS assignment publishes, except that a
   * function or class takes the name `P`. For an identifier `I` the names are the other way
   * round: the export is `export { P as I }`, publishing the local `P` under the name `I`.
   */
  lemma NamedExportMeaning(left: Pat, right: Expr, p: string)
    requires IsExportsMember(left) == Some(p)
    ensures Rewrite(AssignItem(left, right)) == Replace(ExportMember(p, right))
    ensures CommonJsExports(left, right) == [ExportEntry(NameIdent(p), right)]
    ensures !right.IdentExpr? ==>
              ExportTable(ExportMember(p, right)) == [ExportEntry(NameIdent(p), Renamed(right, p))]
    ensures right.IdentExpr? ==>
              ExportTable(ExportMember(p, right)) == [ExportEntry(NameIdent(right.sym), IdentExpr(p))]
  {
    ExportTargetsDisjoint(left);
    match right
    case IdentExpr(i) =>
      var specs := [ExportNamedSpec(NameIdent(p), Some(NameIdent(i)))];
      assert ExportMember(p, right) == NamedExport(specs, None);
      assert SpecExports(specs[1..]) == [];
    case FnExpr(_, _) =>
    case ClassExpr(_, _) =>
    case _ =>
      var decls := [VarDeclarator(IdentPat(p), Some(right))];
      assert VarExports(decls[1..]) == [];
  }

  /** `exports.P = require("s")` is an export of the call, not an import. */
  lemma ExportsBeforeRequire(p: string, args: seq<ExprOrSpread>)
    ensures Rewrite(AssignItem(ExprPat(MemberExpr(IdentExpr("exports"), IdentProp(p))),
                               CallExpr(ExprCallee(IdentExpr("require")), args)))
         == Replace(ExportDecl(VarDecl(Const, [VarDeclarator(IdentPat(p),
                                                Some(CallExpr(ExprCallee(IdentExpr("require")), args)))])))
  {
  }

  // ---- Imports ---------------------------------------------------------------------------

  /**
   * The object-pattern properties the pass converts: a shorthand `a` without a default, or
   * `k: v` with an identifier or string key and an identifier value.
   */
  predicate IsSimpleProp(prop: ObjectPatProp)
  {
    || (prop.AssignProp? && prop.dflt.None?)
    || (prop.KeyValueProp? && (prop.key.KeyIdent? || prop.key.KeyStr?) && prop.value.IdentPat?)
  }

  /**
   * `const { ... } = require(src)` fails exactly when some property is not simple (a default,
   * a rest element, a nested pattern, a numeric or computed key), and then the failure names
   * the first such property. The reference bindings are defined for the same patterns.
   */
  lemma {:induction false} DeclImportFailsExactly(props: seq<ObjectPatProp>, src: Str)
    ensures DeclImport(ObjectPat(props), src).Err? <==> exists k :: 0 <= k < |props| && !IsSimpleProp(props[k])
    ensures DeclImport(ObjectPat(props), src).Err? ==>
              exists k :: 0 <= k < |props| && DeclImport(ObjectPat(props), src).failure == UnsupportedObjectProp(props[k]) &&
                          !IsSimpleProp(props[k]) && forall j :: 0 <= j < k ==> IsSimpleProp(props[j])
    ensures RequireBindings(ObjectPat(props), src).None? <==> DeclImport(ObjectPat(props), src).Err?
  {
    forall k | 0 <= k < |props|
      ensures ImportSpecifierFor(props[k]).Ok? <==> IsSimpleProp(props[k])
      ensures ImportSpecifierFor(props[k]).Err? ==> ImportSpecifierFor(props[k]).failure == UnsupportedObjectProp(props[k])
      ensures PropBinding(props[k], src).Some? <==> IsSimpleProp(props[k])
    {
    }
  }

  /**
   * A shorthand property without a default imports the member of its own name, without an
   * alias; a pattern made only of such properties becomes `import { a, b, ... } from src`.
   */
  lemma {:induction false} ShorthandImportsUnaliased(ids: seq<string>, src: Str)
    ensures forall k :: 0 <= k < |ids| ==> ImportSpecifierFor(AssignProp(ids[k], None)) == Ok(ImportNamed(ids[k], None))
    ensures DeclImport(ObjectPat(seq(|ids|, k requires 0 <= k < |ids| => AssignProp(ids[k], None))), src)
         == Ok(Import(seq(|ids|, k requires 0 <= k < |ids| => ImportNamed(ids[k], None)), src))
  {
    var props := seq(|ids|, k requires 0 <= k < |ids| => AssignProp(ids[k], None));
    var specs := seq(|ids|, k requires 0 <= k < |ids| => ImportNamed(ids[k], None));
    assert forall k :: 0 <= k < |props| ==> ImportSpecifierFor(props[k]) == Ok(specs[k]);
    assert NamedImportSpecifiers(props).value == specs;
  }

  /**
   * `k: v` with an identifier or string key imports member `k` under the local name `v`,
   * always with an explicit `as`, even when `k` and `v` are the same name: `{a: a}` becomes
   * `import { a as a }`, unlike the shorthand `{a}`.
   */
  lemma KeyValueImportsAliased(k: string, s: Str, v: string)
    ensures ImportSpecifierFor(KeyValueProp(KeyIdent(k), IdentPat(v))) == Ok(ImportNamed(v, Some(NameIdent(k))))
    ensures ImportSpecifierFor(KeyValueProp(KeyStr(s), IdentPat(v))) == Ok(ImportNamed(v, Some(NameStr(s))))
    ensures ImportSpecifierFor(KeyValueProp(KeyIdent(v), IdentPat(v))) != ImportSpecifierFor(AssignProp(v, None))
  {
  }

  /** The import built for a binding pattern binds exactly what the destructuring `require` binds. */
  lemma {:induction false} DeclImportMeaning(pat: Pat, src: Str)
    ensures DeclImport(pat, src).Ok? <==> RequireBindings(pat, src).Some?
    ensures DeclImport(pat, src).Ok? ==>
              DeclImport(pat, src).value.Import? && DeclImport(pat, src).value.src == src &&
              ImportTable(DeclImport(pat, src).value) == RequireBindings(pat, src).value
  {
    match pat
    case ObjectPat(props) =>
      var r := NamedImportSpecifiers(props);
      forall k | 0 <= k < |props|
        ensures ImportSpecifierFor(props[k]).Ok? <==> PropBinding(props[k], src).Some?
        ensures ImportSpecifierFor(props[k]).Ok? ==>
                  SpecifierImport(ImportSpecifierFor(props[k]).value, src) == PropBinding(props[k], src).value
      {
      }
      if r.Ok? {
        var table := ImportTable(Import(r.value, src));
        var bindings := PropBindings(props, src).value;
        assert |table| == |bindings|;
        assert forall k :: 0 <= k < |table| ==> table[k] == bindings[k];
      }
    case _ =>
  }

  /**
   * `kind pat = require(args), rest...;` with a string source: the whole statement becomes
   * one import whose bindings are those of the destructuring, or fails if the pattern is not
   * supported. Whatever declarators follow the first are not consulted (and are dropped).
   */
  lemma RequireDeclMeaning(kind: VarDeclKind, pat: Pat, args: seq<ExprOrSpread>, rest: seq<VarDeclarator>, src: Str)
    requires RequireSource(args) == Ok(src)
    ensures var step := Rewrite(VarItem(kind, pat, CallExpr(ExprCallee(IdentExpr("require")), args), rest));
      && (step.Replace? <==> RequireBindings(pat, src).Some?)
      && (step.Replace? ==> step.decl.Import? && step.decl.src == src &&
                            ImportTable(step.decl) == RequireBindings(pat, src).value)
      && (!step.Replace? ==> step.Fail?)
      && step == Rewrite(VarItem(Const, pat, CallExpr(ExprCallee(IdentExpr("require")), args), []))
  {
    DeclImportMeaning(pat, src);
  }

  /**
   * `x = require(args);` with a string source becomes a default import of `x`; any other
   * target (an object pattern included) is a failure.
   */
  lemma RequireAssignMeaning(left: Pat, args: seq<ExprOrSpread>, src: Str)
    requires !IsModuleExports(left) && IsExportsMember(left).None?
    requires RequireSource(args) == Ok(src)
    ensures var step := Rewrite(AssignItem(left, CallExpr(ExprCallee(IdentExpr("require")), args)));
      && (left.IdentPat? ==> step == Replace(Import([ImportDefault(left.id)], src)) &&
                             ImportTable(step.decl) == RequireBindings(left, src).value)
      && (!left.IdentPat? ==> step == Fail(UnsupportedBinding(left)))
  {
  }

  /** A `require` without a string-literal first argument fails in both forms, before the pattern is looked at. */
  lemma MalformedRequireFails(left: Pat, kind: VarDeclKind, pat: Pat, args: seq<ExprOrSpread>, rest: seq<VarDeclarator>)
    requires !IsModuleExports(left) && IsExportsMember(left).None?
    requires RequireSource(args).Err?
    ensures Rewrite(AssignItem(left, CallExpr(ExprCallee(IdentExpr("require")), args))) == Fail(RequireSource(args).failure)
    ensures Rewrite(VarItem(kind, pat, CallExpr(ExprCallee(IdentExpr("require")), args), rest)) == Fail(RequireSource(args).failure)
    ensures |args| == 0 ==> RequireSource(args).failure == MissingRequireArgument
  {
  }

  // ---- The whole pass --------------------------------------------------------------------

  /** After a pass that finished, a second pass finishes too and changes nothing. */
  lemma {:induction false} SecondPassChangesNothing(items: seq<ModuleItem>)
    requires RunPass(items).outcome == Done
    ensures RunPass(RunPass(items).items) == PassResult(RunPass(items).items, Done)
    decreases |items|
  {
    if |items| > 0 {
      var once := RunPass(items).items;
      var rest := RunPass(items[1..]);
      AppliedIsFixed(items[0]);
      SecondPassChangesNothing(items[1..]);
      assert once == [Applied(items[0])] + rest.items;
      assert once[1..] == rest.items;
    }
  }
}
