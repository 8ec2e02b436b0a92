/**
 The fragment of Rust that the compiler emits, as a tree: named locals, blocks of `let`s,
 `if`, `?`, closures, local procedures, and the `loop` / `break` / `continue` of a function.
 */
module RustIr {
  import opened Lists
  import Kl

  /** A Rust local: `v_<name>`, `__t<n>`, one of the fixed `__x __n __h __v`, or `_`. */
  datatype RVar = V(id: Kl.SymId) | T(n: nat) | FixedX | FixedN | FixedH | FixedV | Wild

  /** `let x = e;` */
  datatype Bind = Bind(x: RVar, e: RExpr)

  datatype Probe = IsNil | IsStr(s: string) | IsSym(id: Kl.SymId)

  /** Expressions of type `Value`; `?` and `return Err(..)` leave the enclosing closure or function. */
  datatype RExpr =
    | Lit(lit: Kl.Expr)                                    // Value::int(..), Value::list([..]), ..
    | Read(x: RVar)                                        // x.clone()
    | Block(binds: List<Bind>, body: RExpr)                // { let ..; let ..; body }
    | IfTrue(t: RVar, thn: RExpr, els: RExpr)              // if rt::is_truthy(interp, &t)? { thn } else { els }
    | BoolOf(t: RVar)                                      // Value::bool(rt::is_truthy(interp, &t)?)
    | Fail                                                 // return Err(ShenError::new(..))
    | CallNamed(f: Kl.SymId, args: seq<RVar>)              // rt::<helper>(..), rt::apply_direct(..)?
    | ApplyValue(fn: RExpr, args: seq<RVar>)               // rt::apply_value(interp, fn, &[..])?
    | Closure(caps: seq<Kl.SymId>, param: Option<Kl.SymId>, body: RExpr, shadow: seq<Kl.SymId>)
      // { let v_c = v_c.clone(); .. make_aot_closure(.., vec![v_c, ..]) }
    | Try(body: RExpr, handler: RExpr)                     // match (|| Ok(body))() { .. }
    | LetProc(go: RVar, code: RExpr, body: RExpr)          // { let go = |interp| Ok(code); body }
    | Go(go: RVar)                                         // go(interp)?
    | Test(probe: Probe, e: RExpr)                         // Value::bool((e).is_nil()) ..
    | GlobalGet(id: Kl.SymId)                              // rt::global_value(interp, id)?
    | GlobalSet(id: Kl.SymId, x: RVar)                     // rt::set_global(interp, id, x)

  /** Statements of a function body, which is the body of a `loop`. */
  datatype RStmt =
    | Break(e: RExpr)                                      // break Ok(e);
    | BreakErr                                             // break Err(..);
    | SBlock(binds: List<Bind>, s: RStmt)
    | SIf(t: RVar, thn: RStmt, els: RStmt)
    | Continue(dst: seq<RVar>, src: seq<RVar>)             // dst0 = src0; ..; continue; `dst` are all parameters
    | SLetProc(go: RVar, code: RExpr, s: RStmt)

  /** `fn aot_<name>(args) { let mut v_p = args[i]; .. loop { body } }` */
  datatype RFn = RFn(name: Kl.SymId, params: seq<Kl.SymId>, body: RStmt)

  /** The locals of user names. */
  function Locals(xs: seq<Kl.SymId>): seq<RVar>
  {
    seq(|xs|, i requires 0 <= i < |xs| => V(xs[i]))
  }
}
