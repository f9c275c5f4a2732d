/** The hook system: hookable functions are declared by name, hook modules
    register hooks for them, and a call of a hookable function goes to the
    first registered hook that elects to handle it, or to the original
    function when none does. Every registered hook inspects the arguments,
    in registration order, and may rewrite them for the hooks after it.
    Arguments and results are opaque values of types A and R. */
module Hooks {
  import opened Common

  /** InvalidHookError: the function was never declared hookable. */
  datatype HookError = InvalidHook(original: string)

  /** A hook: `inspect` says whether it elects to handle the call and gives
      the arguments as it leaves them; `call` handles the call. */
  datatype Hook<!A, R> = Hook(inspect: A -> (bool, A), call: A -> R)

  /** A registered hook and the hook module it comes from. */
  datatype Registration<!A, R> = Registration(filename: string, hook: Hook<A, R>)

  /** The arguments after the first `k` hooks inspected them. */
  function ArgsAfter<A, R>(hooks: seq<Registration<A, R>>, args: A, k: nat): A
    requires k <= |hooks|
  {
    if k == 0 then args else hooks[k - 1].hook.inspect(ArgsAfter(hooks, args, k - 1)).1
  }

  /** The `k`-th hook elects to handle the call, given the arguments as the
      hooks before it left them. */
  predicate Elects<A, R>(hooks: seq<Registration<A, R>>, args: A, k: nat)
    requires k < |hooks|
  {
    hooks[k].hook.inspect(ArgsAfter(hooks, args, k)).0
  }

  /** The first of the first `n` hooks that elects, if any. */
  function FirstElecting<A, R>(hooks: seq<Registration<A, R>>, args: A, n: nat): (r: Option<nat>)
    requires n <= |hooks|
    ensures r.Some? ==> r.value < n && Elects(hooks, args, r.value)
                        && forall j :: 0 <= j < r.value ==> !Elects(hooks, args, j)
    ensures r.None? ==> forall j :: 0 <= j < n ==> !Elects(hooks, args, j)
  {
    if n == 0 then None
    else
      var d := FirstElecting(hooks, args, n - 1);
      if d.Some? then d else if Elects(hooks, args, n - 1) then Some(n - 1) else None
  }

  /** HookManager.execute as written: the designated hook, or the original,
      is called with the arguments as the caller gave them, whatever the
      hooks' inspection did to them. */
  function ExecutedAsWritten<A, R>(mapping: map<string, seq<Registration<A, R>>>, original: string,
                                  originalFn: A -> R, args: A): (r: Result<R, HookError>)
    ensures original !in mapping <==> r == Err(InvalidHook(original))
    ensures original in mapping ==>
      var d := FirstElecting(mapping[original], args, |mapping[original]|);
      r == Ok(if d.Some? then mapping[original][d.value].hook.call(args) else originalFn(args))
  {
    if original !in mapping then Err(InvalidHook(original))
    else
      var hooks := mapping[original];
      var d := FirstElecting(hooks, args, |hooks|);
      Ok(if d.Some? then hooks[d.value].hook.call(args) else originalFn(args))
  }

  /** The `k`-th hook is the first that elects to handle the call. */
  predicate IsFirstElecting<A, R>(hooks: seq<Registration<A, R>>, args: A, k: nat)
  {
    k < |hooks| && Elects(hooks, args, k) && forall j :: 0 <= j < k ==> !Elects(hooks, args, j)
  }

  /** At most one hook is the first to elect, and FirstElecting finds it. */
  lemma FirstElectingIsFirst<A, R>(hooks: seq<Registration<A, R>>, args: A, k: nat)
    requires IsFirstElecting(hooks, args, k)
    ensures FirstElecting(hooks, args, |hooks|) == Some(k)
  {
  }

  /** HookManager.execute as the Hook class documents it: the first hook
      that elects handles the call and receives the arguments as all the
      hooks' inspections left them; when no hook elects, the original
      function is called with the arguments given. */
  function Executed<A, R>(mapping: map<string, seq<Registration<A, R>>>, original: string,
                          originalFn: A -> R, args: A): (r: Result<R, HookError>)
    ensures original !in mapping <==> r == Err(InvalidHook(original))
    ensures original in mapping && (forall j :: 0 <= j < |mapping[original]| ==> !Elects(mapping[original], args, j))
            ==> r == Ok(originalFn(args))
    ensures forall k: nat :: original in mapping && IsFirstElecting(mapping[original], args, k) ==>
              r == Ok(mapping[original][k].hook.call(ArgsAfter(mapping[original], args, |mapping[original]|)))
  {
    if original !in mapping then Err(InvalidHook(original))
    else
      var hooks := mapping[original];
      var d := FirstElecting(hooks, args, |hooks|);
      assert forall k: nat :: IsFirstElecting(hooks, args, k) ==> d == Some(k) by {
        forall k: nat | IsFirstElecting(hooks, args, k) ensures d == Some(k) {
          FirstElectingIsFirst(hooks, args, k);
        }
      }
      Ok(if d.Some? then hooks[d.value].hook.call(ArgsAfter(hooks, args, |hooks|)) else originalFn(args))
  }

  /** As written, a hook that rewrites the arguments it elects on is called
      with the old ones: a hook electing on "a" and rewriting it to "b" is
      handed "a", where the documented behaviour hands it "b". */
  lemma ExecuteDropsRewrittenArgs()
    ensures var hook := Hook((s: string) => (true, "b"), (s: string) => s);
      var mapping := map["preprocess_urls" := [Registration("rewrite.py", hook)]];
      var id := (s: string) => s;
      && ExecutedAsWritten(mapping, "preprocess_urls", id, "a") == Ok("a")
      && Executed(mapping, "preprocess_urls", id, "a") == Ok("b")
  {
    var hook := Hook((s: string) => (true, "b"), (s: string) => s);
    var hooks := [Registration("rewrite.py", hook)];
    assert Elects(hooks, "a", 0);
    assert ArgsAfter(hooks, "a", 1) == "b";
  }

  /** Hooks registered for a call inspect it, but do not change what the
      hooks before them see. */
  lemma {:induction false} ArgsAfterExtend<A, R>(hooks: seq<Registration<A, R>>, more: Registration<A, R>,
                                                  args: A, k: nat)
    requires k <= |hooks|
    ensures ArgsAfter(hooks + [more], args, k) == ArgsAfter(hooks, args, k)
  {
    if k > 0 {
      ArgsAfterExtend(hooks, more, args, k - 1);
      assert (hooks + [more])[k - 1] == hooks[k - 1];
    }
  }

  /** Two hook lists whose first `n` hooks elect alike have the same first
      electing hook among them. */
  lemma {:induction false} FirstElectingAlike<A, R>(hooks: seq<Registration<A, R>>, other: seq<Registration<A, R>>,
                                                     args: A, n: nat)
    requires n <= |hooks| && n <= |other|
    requires forall j :: 0 <= j < n ==> Elects(hooks, args, j) == Elects(other, args, j)
    ensures FirstElecting(hooks, args, n) == FirstElecting(other, args, n)
  {
    if n > 0 {
      FirstElectingAlike(hooks, other, args, n - 1);
    }
  }

  /** Registering a hook never takes a call away from a hook registered
      before it: the new hook handles the call only when no earlier hook
      elects to, and then exactly when it elects itself. */
  lemma FirstElectingExtend<A, R>(hooks: seq<Registration<A, R>>, more: Registration<A, R>, args: A)
    ensures var d := FirstElecting(hooks, args, |hooks|);
      var d' := FirstElecting(hooks + [more], args, |hooks| + 1);
      && (d.Some? ==> d' == d)
      && (d.None? ==> (d' == Some(|hooks|) <==> more.hook.inspect(ArgsAfter(hooks, args, |hooks|)).0))
      && (d.None? ==> (d'.None? <==> !more.hook.inspect(ArgsAfter(hooks, args, |hooks|)).0))
  {
    var longer := hooks + [more];
    forall j | 0 <= j < |hooks| ensures Elects(hooks, args, j) == Elects(longer, args, j) {
      ArgsAfterExtend(hooks, more, args, j);
      assert longer[j] == hooks[j];
    }
    FirstElectingAlike(hooks, longer, args, |hooks|);
    ArgsAfterExtend(hooks, more, args, |hooks|);
    assert longer[|hooks|] == more;
    assert Elects(longer, args, |hooks|) == more.hook.inspect(ArgsAfter(hooks, args, |hooks|)).0;
  }

  /** The hooks module's registry of hookable functions. */
  class HookManager<A, R> {
    /** Registered hooks per declared function name, in registration order. */
    var mapping: map<string, seq<Registration<A, R>>>

    constructor()
      ensures mapping == map[]
    {
      mapping := map[];
    }

    /** HookManager.declare: the function becomes hookable, with no hooks
        (a second declaration forgets the hooks registered so far). */
    method Declare(original: string)
      modifies this
      ensures mapping == old(mapping)[original := []]
    {
      mapping := mapping[original := []];
    }

    /** HookManager._register: appends the hook to a declared function's
        list, and raises InvalidHookError for an undeclared one. */
    method Register(filename: string, original: string, hook: Hook<A, R>) returns (r: Result<(), HookError>)
      modifies this
      ensures original !in old(mapping) ==> r == Err(InvalidHook(original)) && mapping == old(mapping)
      ensures original in old(mapping) ==>
                r.Ok? && mapping == old(mapping)[original := old(mapping)[original] + [Registration(filename, hook)]]
    {
      if original !in mapping {
        return Err(InvalidHook(original));
      }
      mapping := mapping[original := mapping[original] + [Registration(filename, hook)]];
      return Ok(());
    }

    /** HookManager.execute: every hook inspects the call in turn; the first
        that elects handles it with the inspected arguments, otherwise the
        original function runs. */
    method Execute(original: string, originalFn: A -> R, args: A) returns (r: Result<R, HookError>)
      ensures r == Executed(mapping, original, originalFn, args)
    {
      if original !in mapping {
        return Err(InvalidHook(original));
      }
      var hooks := mapping[original];
      var current := args;
      var designated: Option<nat> := None;
      var i := 0;
      while i < |hooks|
        invariant 0 <= i <= |hooks|
        invariant current == ArgsAfter(hooks, args, i)
        invariant designated == FirstElecting(hooks, args, i)
      {
        var inspected := hooks[i].hook.inspect(current);
        if inspected.0 && designated.None? {
          designated := Some(i);
        }
        current := inspected.1;
        i := i + 1;
      }
      if designated.Some? {
        r := Ok(hooks[designated.value].hook.call(current));
      } else {
        r := Ok(originalFn(args));
      }
    }
  }
}
