/**
 * One selectable cell of the calendar grid: its derived-state cache
 * (className and content, recomputed only when their source or the
 * active start date changes) and its disabled rule.
 *
 * Dates are millisecond timestamps, the value of `Date.getTime()`.
 */
module Tile {
  import opened Wrappers

  type Instant = int

  /** What a derivation function or the disabling predicate is given. */
  datatype Args = Args(activeStartDate: Instant, date: Instant, view: string)

  /**
   * A prop that is either absent, a plain value, or a function of the tile's
   * Args. `id` stands for the identity of the JavaScript value: two sources
   * are the same reference exactly when they have the same shape and id.
   */
  datatype Source<V> = Absent | Static(id: nat, v: V) | Derived(id: nat, f: Args -> V)

  /** The props of a tile that this model reads. */
  datatype TileProps<C> = TileProps(
    activeStartDate: Instant,
    date: Instant,
    view: string,
    classes: Option<seq<Option<string>>>,
    locale: Option<string>,
    formatAbbr: Option<(Option<string>, Instant) -> string>,
    minDate: Option<Instant>,
    maxDate: Option<Instant>,
    minDateTransform: Instant -> Instant,
    maxDateTransform: Instant -> Instant,
    tileClassName: Source<string>,
    tileContent: Source<C>,
    tileDisabled: Option<Args -> bool>)

  /**
   * The persistent state of one tile: the sources last seen, the values
   * derived from them, and the active start date last seen.
   */
  datatype TileState<C> = TileState(
    classNameSrc: Source<string>,
    className: Option<string>,
    contentSrc: Source<C>,
    content: Option<C>,
    activeStartDate: Option<Instant>)

  /** The state before the first render: every slot absent. */
  function Initial<C>(): TileState<C> {
    TileState(Absent, None, Absent, None, None)
  }

  function ArgsOf<C>(props: TileProps<C>): Args {
    Args(props.activeStartDate, props.date, props.view)
  }

  /** JavaScript's `a === b` on two sources. */
  predicate SameRef<V>(a: Source<V>, b: Source<V>) {
    match a
    case Absent => b.Absent?
    case Static(i, _) => b.Static? && b.id == i
    case Derived(i, _) => b.Derived? && b.id == i
  }

  /**
   * True when exactly one date is present, or both are present with
   * different instants; distinct objects for the same instant are equal.
   */
  function DatesAreDifferent(date1: Option<Instant>, date2: Option<Instant>): (r: bool)
    ensures r <==> date1 != date2
    ensures date1.None? && date2.None? ==> !r
    ensures date1.Some? != date2.Some? ==> r
  {
    (date1.Some? && date2.None?) ||
    (date1.None? && date2.Some?) ||
    (date1.Some? && date2.Some? && date1.value != date2.value)
  }

  /** A function source is applied to the args; any other source passes through. */
  function GetValue<V>(args: Args, src: Source<V>): (r: Option<V>)
    ensures r.None? <==> src.Absent?
    ensures src.Static? ==> r == Some(src.v)
    ensures src.Derived? ==> r == Some(src.f(args))
  {
    match src
    case Absent => None
    case Static(_, v) => Some(v)
    case Derived(_, f) => Some(f(args))
  }

  /** The className slice must be recomputed for these props. */
  predicate ClassNameStale<C>(props: TileProps<C>, prev: TileState<C>) {
    !SameRef(props.tileClassName, prev.classNameSrc) ||
    DatesAreDifferent(Some(props.activeStartDate), prev.activeStartDate)
  }

  /** The content slice must be recomputed for these props. */
  predicate ContentStale<C>(props: TileProps<C>, prev: TileState<C>) {
    !SameRef(props.tileContent, prev.contentSrc) ||
    DatesAreDifferent(Some(props.activeStartDate), prev.activeStartDate)
  }

  /**
   * One derived-state step: the partial next state the tile computes,
   * merged over the previous state.
   */
  function Derive<C>(props: TileProps<C>, prev: TileState<C>): (next: TileState<C>)
    ensures SameRef(next.classNameSrc, props.tileClassName)
    ensures SameRef(next.contentSrc, props.tileContent)
    ensures next.activeStartDate == Some(props.activeStartDate)
  {
    var args := ArgsOf(props);
    var renewClassName := ClassNameStale(props, prev);
    var renewContent := ContentStale(props, prev);
    TileState(
      if renewClassName then props.tileClassName else prev.classNameSrc,
      if renewClassName then GetValue(args, props.tileClassName) else prev.className,
      if renewContent then props.tileContent else prev.contentSrc,
      if renewContent then GetValue(args, props.tileContent) else prev.content,
      Some(props.activeStartDate))
  }

  /** Whether a step calls the className derivation function. */
  predicate InvokesClassName<C>(props: TileProps<C>, prev: TileState<C>) {
    ClassNameStale(props, prev) && props.tileClassName.Derived?
  }

  /** Whether a step calls the content derivation function. */
  predicate InvokesContent<C>(props: TileProps<C>, prev: TileState<C>) {
    ContentStale(props, prev) && props.tileContent.Derived?
  }

  /** Neither source nor the active start date changed: nothing is derived and nothing changes. */
  lemma UnchangedInputsKeepCache<C>(props: TileProps<C>, prev: TileState<C>)
    requires SameRef(props.tileClassName, prev.classNameSrc)
    requires SameRef(props.tileContent, prev.contentSrc)
    requires prev.activeStartDate == Some(props.activeStartDate)
    ensures !InvokesClassName(props, prev) && !InvokesContent(props, prev)
    ensures Derive(props, prev) == prev
  {
  }

  /** A new active start instant recomputes both slices, even for reference-identical sources. */
  lemma ActiveStartChangeRecomputesBoth<C>(props: TileProps<C>, prev: TileState<C>)
    requires prev.activeStartDate != Some(props.activeStartDate)
    ensures Derive(props, prev).className == GetValue(ArgsOf(props), props.tileClassName)
    ensures Derive(props, prev).content == GetValue(ArgsOf(props), props.tileContent)
    ensures InvokesClassName(props, prev) <==> props.tileClassName.Derived?
    ensures InvokesContent(props, prev) <==> props.tileContent.Derived?
  {
  }

  /** With the active start date unchanged, a slice whose source is the same reference is left alone. */
  lemma SlicesAreIndependent<C>(props: TileProps<C>, prev: TileState<C>)
    requires prev.activeStartDate == Some(props.activeStartDate)
    ensures SameRef(props.tileClassName, prev.classNameSrc) ==>
      Derive(props, prev).classNameSrc == prev.classNameSrc &&
      Derive(props, prev).className == prev.className &&
      !InvokesClassName(props, prev)
    ensures SameRef(props.tileContent, prev.contentSrc) ==>
      Derive(props, prev).contentSrc == prev.contentSrc &&
      Derive(props, prev).content == prev.content &&
      !InvokesContent(props, prev)
  {
  }

  /**
   * A recomputed slice holds exactly what its new source yields for the new
   * props: the function's result, the static value, or absence.
   */
  lemma RecomputeStoresSourceValue<C>(props: TileProps<C>, prev: TileState<C>)
    ensures ClassNameStale(props, prev) ==>
      var v := Derive(props, prev).className;
      match props.tileClassName
      case Absent => v == None
      case Static(_, s) => v == Some(s)
      case Derived(_, f) => v == Some(f(Args(props.activeStartDate, props.date, props.view)))
    ensures ContentStale(props, prev) ==>
      var v := Derive(props, prev).content;
      match props.tileContent
      case Absent => v == None
      case Static(_, s) => v == Some(s)
      case Derived(_, f) => v == Some(f(Args(props.activeStartDate, props.date, props.view)))
  {
  }

  /** The first step from the all-absent state derives both slices. */
  lemma FirstStepDerivesBoth<C>(props: TileProps<C>)
    ensures ClassNameStale(props, Initial()) && ContentStale(props, Initial())
    ensures Derive(props, Initial()).className == GetValue(ArgsOf(props), props.tileClassName)
    ensures Derive(props, Initial()).content == GetValue(ArgsOf(props), props.tileContent)
  {
  }

  /** A second step with the same props changes nothing. */
  lemma DeriveIsIdempotent<C>(props: TileProps<C>, prev: TileState<C>)
    ensures Derive(props, Derive(props, prev)) == Derive(props, prev)
  {
    UnchangedInputsKeepCache(props, Derive(props, prev));
  }

  /** The outcome of a step that may throw. */
  datatype Outcome<T> = TypeError | Done(value: T)

  /**
   * The step as written. Because line 77 gives the class, not the instance,
   * a `state`, React passes null as the first previous state, and reading
   * `prevState.tileClassNameProps` from null throws.
   */
  function DeriveAsWritten<C>(props: TileProps<C>, prev: Option<TileState<C>>): (r: Outcome<TileState<C>>)
    ensures r.TypeError? <==> prev.None?
    ensures prev.Some? ==> r == Done(Derive(props, prev.value))
  {
    match prev
    case None => TypeError
    case Some(s) => Done(Derive(props, s))
  }

  /** As written, the first mount of every tile throws, whatever its props. */
  lemma FirstMountThrowsAsWritten<C>(props: TileProps<C>)
    ensures DeriveAsWritten(props, None) == TypeError
    ensures DeriveAsWritten(props, Some(Initial())).Done?
  {
  }

  /** The state after rendering `ps` in order, starting from `s`. */
  ghost function Run<C>(ps: seq<TileProps<C>>, s: TileState<C>): TileState<C>
    decreases |ps|
  {
    if ps == [] then s else Derive(ps[|ps| - 1], Run(ps[..|ps| - 1], s))
  }

  /** A run of renders that changes neither source nor the active start instant leaves the cache identical. */
  lemma {:induction false} RunKeepsCache<C>(ps: seq<TileProps<C>>, s: TileState<C>)
    requires forall j :: 0 <= j < |ps| ==>
      SameRef(ps[j].tileClassName, s.classNameSrc) &&
      SameRef(ps[j].tileContent, s.contentSrc) &&
      s.activeStartDate == Some(ps[j].activeStartDate)
    ensures Run(ps, s) == s
    decreases |ps|
  {
    if ps != [] {
      var prefix := ps[..|ps| - 1];
      RunKeepsCache(prefix, s);
      UnchangedInputsKeepCache(ps[|ps| - 1], s);
    }
  }

  /**
   * The cache is keyed on the source reference and the active start date
   * only: a second render that changes just `date` or `view` keeps the
   * values derived from the first render's args.
   */
  lemma {:induction false} DateOnlyChangeKeepsFirstValues<C>(p0: TileProps<C>, p1: TileProps<C>)
    requires SameRef(p1.tileClassName, p0.tileClassName)
    requires SameRef(p1.tileContent, p0.tileContent)
    requires p1.activeStartDate == p0.activeStartDate
    ensures Run([p0, p1], Initial()).className == GetValue(ArgsOf(p0), p0.tileClassName)
    ensures Run([p0, p1], Initial()).content == GetValue(ArgsOf(p0), p0.tileContent)
  {
    assert [p0, p1][..1] == [p0];
    var none: seq<TileProps<C>> := [];
    assert [p0][..0] == none;
    assert Run(none, Initial<C>()) == Initial<C>();
    var first := Run([p0], Initial<C>());
    assert first == Derive(p0, Run(none, Initial<C>()));
    assert Run([p0, p1], Initial<C>()) == Derive(p1, first);
  }

  /**
   * After any non-empty run from the initial state, each cached slice is what
   * its source yielded at some render k, and from k on every render had the
   * same source reference and the same active start instant: the cache is
   * never stale with respect to its source and the active start date. It is
   * not keyed on `date` or `view` (see `DateOnlyChangeKeepsFirstValues`).
   */
  lemma {:induction false} RunCoherent<C>(ps: seq<TileProps<C>>) returns (kc: nat, kt: nat)
    requires ps != []
    ensures kc < |ps| && kt < |ps|
    ensures Run(ps, Initial()).className == GetValue(ArgsOf(ps[kc]), ps[kc].tileClassName)
    ensures forall j :: kc <= j < |ps| ==>
      SameRef(ps[j].tileClassName, ps[kc].tileClassName) &&
      ps[j].activeStartDate == ps[kc].activeStartDate
    ensures Run(ps, Initial()).content == GetValue(ArgsOf(ps[kt]), ps[kt].tileContent)
    ensures forall j :: kt <= j < |ps| ==>
      SameRef(ps[j].tileContent, ps[kt].tileContent) &&
      ps[j].activeStartDate == ps[kt].activeStartDate
    decreases |ps|
  {
    var n := |ps|;
    var last := ps[n - 1];
    var prefix := ps[..n - 1];
    var prev := Run(prefix, Initial<C>());
    if n == 1 {
      assert prefix == [];
      kc, kt := 0, 0;
      return;
    }
    var k1, k2 := RunCoherent(prefix);
    // The previous state tracks render n - 2.
    assert prev == Derive(ps[n - 2], Run(prefix[..n - 2], Initial<C>()));
    if ClassNameStale(last, prev) {
      kc := n - 1;
    } else {
      kc := k1;
      forall j | kc <= j < n
        ensures SameRef(ps[j].tileClassName, ps[kc].tileClassName)
        ensures ps[j].activeStartDate == ps[kc].activeStartDate
      {
        if j < n - 1 {
          assert prefix[j] == ps[j] && prefix[kc] == ps[kc];
        } else {
          assert prefix[n - 2] == ps[n - 2] && prefix[kc] == ps[kc];
        }
      }
    }
    if ContentStale(last, prev) {
      kt := n - 1;
    } else {
      kt := k2;
      forall j | kt <= j < n
        ensures SameRef(ps[j].tileContent, ps[kt].tileContent)
        ensures ps[j].activeStartDate == ps[kt].activeStartDate
      {
        if j < n - 1 {
          assert prefix[j] == ps[j] && prefix[kt] == ps[kt];
        } else {
          assert prefix[n - 2] == ps[n - 2] && prefix[kt] == ps[kt];
        }
      }
    }
  }

  /** The outcome of the disabled expression, and whether it called `tileDisabled`. */
  datatype DisabledEval = DisabledEval(disabled: bool, predicateCalled: bool)

  /**
   * The disabled expression: the min-bound check, then the max-bound check,
   * then the optional predicate, stopping at the first that holds.
   */
  function EvalDisabled<C>(props: TileProps<C>): (r: DisabledEval)
    ensures r.disabled <==>
      (props.minDate.Some? && props.date < props.minDateTransform(props.minDate.value)) ||
      (props.maxDate.Some? && props.date > props.maxDateTransform(props.maxDate.value)) ||
      (props.tileDisabled.Some? && props.tileDisabled.value(ArgsOf(props)))
    ensures r.predicateCalled <==>
      props.tileDisabled.Some? &&
      (props.minDate.None? || props.date >= props.minDateTransform(props.minDate.value)) &&
      (props.maxDate.None? || props.date <= props.maxDateTransform(props.maxDate.value))
  {
    if props.minDate.Some? && props.minDateTransform(props.minDate.value) > props.date then
      DisabledEval(true, false)
    else if props.maxDate.Some? && props.maxDateTransform(props.maxDate.value) < props.date then
      DisabledEval(true, false)
    else if props.tileDisabled.Some? then
      DisabledEval(props.tileDisabled.value(ArgsOf(props)), true)
    else
      DisabledEval(false, false)
  }

  /** The comparisons are strict: a date on either transformed bound is not disabled by it. */
  lemma BoundsAreInclusive<C>(props: TileProps<C>)
    requires props.minDate.Some? ==> props.minDateTransform(props.minDate.value) <= props.date
    requires props.maxDate.Some? ==> props.date <= props.maxDateTransform(props.maxDate.value)
    ensures EvalDisabled(props).disabled <==>
      props.tileDisabled.Some? && props.tileDisabled.value(ArgsOf(props))
  {
  }

  /** The rendered button: its class pair, disabled flag and content. */
  datatype Button<C> = Button(
    classes: Option<seq<Option<string>>>,
    tileClassName: Option<string>,
    disabled: bool,
    content: Option<C>)

  /**
   * Rendering reads the cached slices (never the sources) and evaluates the
   * disabled rule afresh.
   */
  function Render<C>(props: TileProps<C>, state: TileState<C>): (b: Button<C>)
    ensures b.classes == props.classes
    ensures b.tileClassName == state.className && b.content == state.content
    ensures b.disabled == EvalDisabled(props).disabled
  {
    Button(props.classes, state.className, EvalDisabled(props).disabled, state.content)
  }

  /** The per-instance derived state, updated in place before every render. */
  class TileEngine<C> {
    var lastClassNameSrc: Source<string>
    var lastContentSrc: Source<C>
    var lastActiveStart: Option<Instant>
    var cachedClassName: Option<string>
    var cachedContent: Option<C>

    /** The fields as a value. */
    function State(): TileState<C>
      reads this
    {
      TileState(lastClassNameSrc, cachedClassName, lastContentSrc, cachedContent, lastActiveStart)
    }

    constructor ()
      ensures State() == Initial()
    {
      lastClassNameSrc := Absent;
      lastContentSrc := Absent;
      lastActiveStart := None;
      cachedClassName := None;
      cachedContent := None;
    }

    /**
     * Recompute each slice whose source or active start date changed, then
     * record the active start date. Reports which derivation functions ran.
     */
    method Step(props: TileProps<C>) returns (classNameInvoked: bool, contentInvoked: bool)
      modifies this
      ensures State() == Derive(props, old(State()))
      ensures classNameInvoked == InvokesClassName(props, old(State()))
      ensures contentInvoked == InvokesContent(props, old(State()))
    {
      var args := ArgsOf(props);
      var activeChanged := DatesAreDifferent(Some(props.activeStartDate), lastActiveStart);
      classNameInvoked, contentInvoked := false, false;
      if !SameRef(props.tileClassName, lastClassNameSrc) || activeChanged {
        cachedClassName := GetValue(args, props.tileClassName);
        lastClassNameSrc := props.tileClassName;
        classNameInvoked := props.tileClassName.Derived?;
      }
      if !SameRef(props.tileContent, lastContentSrc) || activeChanged {
        cachedContent := GetValue(args, props.tileContent);
        lastContentSrc := props.tileContent;
        contentInvoked := props.tileContent.Derived?;
      }
      lastActiveStart := Some(props.activeStartDate);
    }
  }
}
