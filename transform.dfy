/**
 * The pass itself, `cjs_to_esm` in src/cjs_to_esm.rs: a loop over the module body that
 * overwrites recognised items in their own slots. Each method is proved to compute the
 * corresponding function of module Rewriting.
 */
module Transform {
  import opened Swc
  import opened Recognizers
  import opened Rewriting

  /** A parsed module; its body is updated in place by the pass. */
  class Module {
    var body: array<ModuleItem>

    constructor (items: seq<ModuleItem>)
      ensures fresh(body) && body[..] == items
    {
      body := new ModuleItem[|items|](k requires 0 <= k < |items| => items[k]);
    }
  }

  /**
   * Builds the named-import specifiers of an object pattern, one `push` per property in
   * declared order, stopping at the first property form it has no case for.
   */
  method CollectNamedImports(props: seq<ObjectPatProp>) returns (r: Result<seq<ImportSpecifier>>)
    ensures r == NamedImportSpecifiers(props)
  {
    var specifiers: seq<ImportSpecifier> := [];
    for i := 0 to |props|
      invariant NamedImportSpecifiers(props[..i]) == Ok(specifiers)
    {
      assert props[..i + 1][..i] == props[..i];
      match props[i] {
        case AssignProp(id, None) =>
          specifiers := specifiers + [ImportNamed(id, None)];
        case KeyValueProp(KeyIdent(k), IdentPat(v)) =>
          specifiers := specifiers + [ImportNamed(v, Some(NameIdent(k)))];
        case KeyValueProp(KeyStr(k), IdentPat(v)) =>
          specifiers := specifiers + [ImportNamed(v, Some(NameStr(k)))];
        case _ =>
          StopsAtFailure(props, i + 1);
          return Err(UnsupportedObjectProp(props[i]));
      }
    }
    assert props[..|props|] == props;
    r := Ok(specifiers);
  }

  /**
   * Classifies one item and builds its replacement, following the source's chain of
   * `if let` tests; an early `return` stands for the source's `continue`.
   */
  method ConvertItem(item: ModuleItem) returns (step: Step)
    ensures step == Rewrite(item)
  {
    if item.StmtItem? && item.stmt.ExprStmt? {
      var expr := item.stmt.expr;
      if expr.AssignExpr? && expr.op == Assign && expr.left.PatTarget? {
        var left, right := expr.left.pat, expr.right;
        if IsModuleExports(left) {
          return Replace(ExportDefaultExpr(right));
        }
        var prop := IsExportsMember(left);
        if prop.Some? {
          var p := prop.value;
          match right {
            case FnExpr(_, f) => step := Replace(ExportDecl(FnDecl(p, f)));
            case ClassExpr(_, c) => step := Replace(ExportDecl(ClassDecl(p, c)));
            case IdentExpr(i) =>
              step := Replace(NamedExport([ExportNamedSpec(NameIdent(p), Some(NameIdent(i)))], None));
            case _ =>
              step := Replace(ExportDecl(VarDecl(Const, [VarDeclarator(IdentPat(p), Some(right))])));
          }
          return;
        }
        if right.CallExpr? && right.callee.ExprCallee? {
          var callee := right.callee.expr;
          if callee.IdentExpr? && callee.sym == "require" {
            if |right.args| == 0 {
              return Fail(MissingRequireArgument);
            }
            var arg := right.args[0];
            if arg.spread || !(arg.expr.LitExpr? && arg.expr.lit.StrLit?) {
              return Fail(NonStringRequireArgument);
            }
            var src := arg.expr.lit.s;
            match left {
              case IdentPat(x) => step := Replace(Import([ImportDefault(x)], src));
              case _ => step := Fail(UnsupportedBinding(left));
            }
            return;
          }
          return Keep;
        }
      }
    }
    if item.StmtItem? && item.stmt.DeclStmt? && item.stmt.decl.VarDecl? {
      var decls := item.stmt.decl.decls;
      if |decls| == 0 {
        return Fail(NoDeclarators);
      }
      var decl := decls[0];
      if decl.init.Some? && decl.init.value.CallExpr? && decl.init.value.callee.ExprCallee? {
        var callee := decl.init.value.callee.expr;
        var args := decl.init.value.args;
        if callee.IdentExpr? && callee.sym == "require" {
          if |args| == 0 {
            return Fail(MissingRequireArgument);
          }
          if args[0].spread || !(args[0].expr.LitExpr? && args[0].expr.lit.StrLit?) {
            return Fail(NonStringRequireArgument);
          }
          var src := args[0].expr.lit.s;
          match decl.name {
            case IdentPat(x) => step := Replace(Import([ImportDefault(x)], src));
            case ObjectPat(props) =>
              var specifiers := CollectNamedImports(props);
              match specifiers {
                case Ok(s) => step := Replace(Import(s, src));
                case Err(f) => step := Fail(f);
              }
            case _ => step := Fail(UnsupportedBinding(decl.name));
          }
          return;
        }
      }
    }
    return Keep;
  }

  /**
   * Rewrites the module body in place, item by item in order. Each slot is either left
   * alone or overwritten with the module declaration built for it; the body keeps its
   * array and its length. A failing item stops the pass and is left as it was.
   */
  method CjsToEsm(m: Module) returns (outcome: Outcome)
    modifies m.body
    ensures m.body[..] == RunPass(old(m.body[..])).items
    ensures outcome == RunPass(old(m.body[..])).outcome
  {
    ghost var items := m.body[..];
    RunPassSlots(items);
    for i := 0 to m.body.Length
      invariant forall k :: 0 <= k < i ==> !Rewrite(items[k]).Fail? && m.body[k] == Applied(items[k])
      invariant forall k :: i <= k < m.body.Length ==> m.body[k] == items[k]
    {
      var step := ConvertItem(m.body[i]);
      match step {
        case Keep =>
        case Replace(d) => m.body[i] := ModuleDeclItem(d);
        case Fail(f) =>
          assert RunPass(items).outcome == Aborted(i, f) by {
            var o := RunPass(items).outcome;
            if o.Aborted? {
              assert !(o.at < i) && !(o.at > i);
            }
          }
          assert m.body[..] == RunPass(items).items;
          return Aborted(i, f);
      }
    }
    assert m.body[..] == RunPass(items).items;
    outcome := Done;
  }
}
