/** Which planned actions a scan hands to the dispatcher. */
module Policy {
  import opened Proxmox

  datatype Options = Options(autoSync: bool, dryRun: bool, prune: bool)

  /** The actions that Scan submits, in plan order, stamped with the commit they were planned from. */
  function Dispatched(opts: Options, commit: string, plan: seq<Action>): seq<Action> {
    if plan == [] || !opts.autoSync then []
    else
      var a := plan[|plan| - 1];
      var rest := Dispatched(opts, commit, plan[..|plan| - 1]);
      if a.informational || (a.typ.ActionDelete? && !opts.prune) || opts.dryRun then rest
      else rest + [a.(commit := commit)]
  }

  /** The action is applied, and deleting is allowed if it deletes. */
  predicate Applicable(opts: Options, a: Action) {
    !a.informational && (a.typ.ActionDelete? ==> opts.prune)
  }

  /** The dispatched actions are exactly the applicable ones, with the commit filled in, unless all applying is off. */
  lemma {:induction false} DispatchedExactly(opts: Options, commit: string, plan: seq<Action>, a: Action)
    ensures a in Dispatched(opts, commit, plan)
       <==> opts.autoSync && !opts.dryRun && exists b :: b in plan && Applicable(opts, b) && a == b.(commit := commit)
  {
    if plan != [] && opts.autoSync {
      var front, last := plan[..|plan| - 1], plan[|plan| - 1];
      assert plan == front + [last];
      DispatchedExactly(opts, commit, front, a);
      assert last in plan;
    }
  }
}
