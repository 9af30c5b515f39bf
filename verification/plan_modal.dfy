/** The plan editor dialog: its feature-list editing, the form schema, and
    what is submitted. */
module PlanModal {
  import opened Wrappers
  import opened Schema
  import opened Text

  // ---------------------------------------------------------------- the feature list

  /** `editingPlan?.features || [""]`: the plan's features, or one empty
      row without a plan. An empty array is truthy, so a plan with no
      features gives no rows. */
  function InitialFeatures(editing: Option<Plan>): (fs: seq<string>)
    ensures editing.None? ==> fs == [""]
    ensures editing.Some? ==> fs == editing.value.features
  {
    match editing
    case None => [""]
    case Some(p) => p.features
  }

  /** The "Add Feature" button: one empty row at the end. */
  function AddFeature(fs: seq<string>): (r: seq<string>)
    ensures |r| == |fs| + 1 && r[..|fs|] == fs && r[|fs|] == ""
  {
    fs + [""]
  }

  /** `features.filter((_, i) => i !== index)`, one position at a time. */
  function RemoveFeature(fs: seq<string>, index: int): (r: seq<string>)
    ensures 0 <= index < |fs| ==> r == fs[..index] + fs[index + 1..]
    ensures !(0 <= index < |fs|) ==> r == fs
    decreases |fs|
  {
    if |fs| == 0 then []
    else
      var pre := fs[..|fs| - 1];
      var rest := RemoveFeature(pre, index);
      if index == |fs| - 1 then
        assert rest == pre;
        rest
      else
        assert fs == pre + [fs[|fs| - 1]];
        rest + [fs[|fs| - 1]]
  }

  /** Editing one row's text; the index always comes from the rendered
      rows, so it is in range. */
  function UpdateFeature(fs: seq<string>, index: int, value: string): (r: seq<string>)
    requires 0 <= index < |fs|
    ensures |r| == |fs| && r[index] == value
    ensures forall i :: 0 <= i < |fs| && i != index ==> r[i] == fs[i]
  {
    fs[index := value]
  }

  /** The features a submit sends: the rows whose trimmed text is not empty. */
  function SubmittedFeatures(fs: seq<string>): (r: seq<string>)
    ensures |r| <= |fs|
    ensures forall f :: f in r <==> f in fs && !IsBlank(f)
    decreases |fs|
  {
    if |fs| == 0 then []
    else
      var pre := fs[..|fs| - 1];
      var last := fs[|fs| - 1];
      var rest := SubmittedFeatures(pre);
      assert fs == pre + [last];
      TrimEmptyIffBlank(last);
      if Trim(last) != "" then rest + [last] else rest
  }

  /** The filter keeps the relative order of the rows it keeps. */
  lemma {:induction false} SubmittedFeaturesConcat(a: seq<string>, b: seq<string>)
    ensures SubmittedFeatures(a + b) == SubmittedFeatures(a) + SubmittedFeatures(b)
    decreases |b|
  {
    if |b| > 0 {
      var b' := b[..|b| - 1];
      assert (a + b)[..|a + b| - 1] == a + b';
      assert (a + b)[|a + b| - 1] == b[|b| - 1];
      SubmittedFeaturesConcat(a, b');
    } else {
      assert a + b == a;
    }
  }

  /** Filtering twice is filtering once. */
  lemma {:induction false} SubmittedFeaturesIdempotent(fs: seq<string>)
    ensures SubmittedFeatures(SubmittedFeatures(fs)) == SubmittedFeatures(fs)
    decreases |fs|
  {
    if |fs| > 0 {
      var pre := fs[..|fs| - 1];
      var last := fs[|fs| - 1];
      SubmittedFeaturesIdempotent(pre);
      TrimEmptyIffBlank(last);
      if Trim(last) != "" {
        SubmittedFeaturesConcat(SubmittedFeatures(pre), [last]);
        assert SubmittedFeatures([last]) == [last] by {
          assert [last][..0] == [];
        }
      }
    }
  }

  // ---------------------------------------------------------------- form, validation, submit

  /** The form's values; `description` may be absent. */
  datatype PlanForm = PlanForm(
    name: string,
    description: Option<string>,
    price: string,
    billingCycle: string,
    features: seq<string>)

  datatype FormField = NameField | PriceField | BillingCycleField | FeaturesField

  /** The fields the schema rejects: empty name, empty price, a billing
      cycle outside the enum, an empty feature list. Blank rows count. */
  function Problems(form: PlanForm): (bad: set<FormField>)
    ensures NameField in bad <==> form.name == ""
    ensures PriceField in bad <==> form.price == ""
    ensures BillingCycleField in bad <==> ParseBillingCycle(form.billingCycle).None?
    ensures FeaturesField in bad <==> form.features == []
  {
    (if form.name == "" then {NameField} else {})
    + (if form.price == "" then {PriceField} else {})
    + (if ParseBillingCycle(form.billingCycle).None? then {BillingCycleField} else {})
    + (if |form.features| < 1 then {FeaturesField} else {})
  }

  /** A submit: validation first, then the blank rows are dropped; nothing
      is sent when validation fails. */
  function HandleSubmit(form: PlanForm): (sent: Option<PlanForm>)
    ensures sent.Some? <==> Problems(form) == {}
    ensures sent.Some? ==> sent.value == form.(features := SubmittedFeatures(form.features))
  {
    if Problems(form) == {} then Some(form.(features := SubmittedFeatures(form.features))) else None
  }

  /** Because validation sees the rows before they are filtered, a list of
      only blank rows passes and is sent as an empty list. */
  lemma AllBlankRowsSubmitEmpty(form: PlanForm)
    requires form.name != "" && form.price != "" && ParseBillingCycle(form.billingCycle).Some?
    requires |form.features| >= 1 && forall i :: 0 <= i < |form.features| ==> IsBlank(form.features[i])
    ensures HandleSubmit(form) == Some(form.(features := []))
  {
    BlankRowsDropped(form.features);
  }

  lemma {:induction false} BlankRowsDropped(fs: seq<string>)
    requires forall i :: 0 <= i < |fs| ==> IsBlank(fs[i])
    ensures SubmittedFeatures(fs) == []
    decreases |fs|
  {
    if |fs| > 0 {
      TrimEmptyIffBlank(fs[|fs| - 1]);
      BlankRowsDropped(fs[..|fs| - 1]);
    }
  }

  // ---------------------------------------------------------------- the dialog's edit session

  /** What the dialog lets a user do to the rows; the remove control is
      only rendered while there is more than one row. */
  datatype Edit = Add | Remove(index: int) | Update(index: int, value: string)

  predicate Enabled(fs: seq<string>, e: Edit) {
    match e
    case Add => true
    case Remove(_) => |fs| > 1
    case Update(i, _) => 0 <= i < |fs|
  }

  function ApplyEdit(fs: seq<string>, e: Edit): (r: seq<string>)
    requires Enabled(fs, e)
  {
    match e
    case Add => AddFeature(fs)
    case Remove(i) => RemoveFeature(fs, i)
    case Update(i, v) => UpdateFeature(fs, i, v)
  }

  /** Replays edits in order, stopping at the first one the dialog would
      not have offered. */
  function ApplyEdits(fs: seq<string>, edits: seq<Edit>): seq<string>
    decreases |edits|
  {
    if |edits| == 0 || !Enabled(fs, edits[0]) then fs
    else ApplyEdits(ApplyEdit(fs, edits[0]), edits[1..])
  }

  /** Edits the dialog offers never empty a non-empty list. */
  lemma {:induction false} EditsKeepARow(fs: seq<string>, edits: seq<Edit>)
    requires |fs| >= 1
    ensures |ApplyEdits(fs, edits)| >= 1
    decreases |edits|
  {
    if |edits| > 0 && Enabled(fs, edits[0]) {
      EditsKeepARow(ApplyEdit(fs, edits[0]), edits[1..]);
    }
  }

  /** So a new plan's dialog never fails the feature-count check. */
  lemma NewPlanFeaturesNeverEmpty(edits: seq<Edit>)
    ensures |ApplyEdits(InitialFeatures(None), edits)| >= 1
  {
    EditsKeepARow([""], edits);
  }

  /** The mounted dialog's state: the rendered rows, the form's `features`
      field, and the form's default for that field. `useState` and
      `useForm({defaultValues})` read the `editingPlan` prop only on the
      first render, so the defaults are fixed when the component mounts. */
  datatype Session = Session(rows: seq<string>, formFeatures: seq<string>, defaults: seq<string>)

  /** The first render, with the prop `editing` as passed at mount time. */
  function Mount(editing: Option<Plan>): (s: Session)
    ensures s.rows == s.formFeatures == s.defaults == InitialFeatures(editing)
  {
    var fs := InitialFeatures(editing);
    Session(fs, fs, fs)
  }

  /** An add, remove or update writes the same new list to the rows and to
      the form's field; the defaults stay. */
  function EditSession(s: Session, e: Edit): (r: Session)
    requires Enabled(s.rows, e)
    ensures r.rows == r.formFeatures == ApplyEdit(s.rows, e)
    ensures r.defaults == s.defaults
  {
    var fs := ApplyEdit(s.rows, e);
    Session(fs, fs, s.defaults)
  }

  /** `handleClose`: `form.reset()` puts the field back to the mount-time
      default, and the rows become one empty row. */
  function HandleClose(s: Session): (r: Session)
    ensures r.rows == [""]
    ensures r.formFeatures == r.defaults == s.defaults
  {
    Session([""], s.defaults, s.defaults)
  }

  /** What can happen to a mounted dialog: an offered edit, a close through
      `handleClose`, a close by the parent after a successful submit (which
      does not go through `handleClose`), and a re-render with another
      `editingPlan` prop. */
  datatype Lifecycle = UserEdit(edit: Edit) | Close | ClosedAfterSubmit | Rerender(editing: Option<Plan>)

  function Step(s: Session, ev: Lifecycle): Session {
    match ev
    case UserEdit(e) => if Enabled(s.rows, e) then EditSession(s, e) else s
    case Close => HandleClose(s)
    case ClosedAfterSubmit => s
    case Rerender(_) => s
  }

  function Run(s: Session, evs: seq<Lifecycle>): Session
    decreases |evs|
  {
    if |evs| == 0 then s else Run(Step(s, evs[0]), evs[1..])
  }

  /** The plans page mounts the dialog once with no plan. From there, on any
      history, the rows and the form's field hold the same list, and the
      default stays one empty row: choosing "Edit" on a plan never loads its
      features. */
  lemma {:induction false} PlansPageSessionsAgree(s: Session, evs: seq<Lifecycle>)
    requires s.rows == s.formFeatures && s.defaults == [""]
    ensures var r := Run(s, evs); r.rows == r.formFeatures && r.defaults == [""]
    decreases |evs|
  {
    if |evs| > 0 {
      PlansPageSessionsAgree(Step(s, evs[0]), evs[1..]);
    }
  }

  /** A close after a successful submit leaves the rows as they were, and a
      re-render with another plan does not replace them: the next opening
      shows the previous session's rows, whatever plan it is opened for. */
  lemma SubmittedRowsCarryOver(s: Session, p: Option<Plan>, evs: seq<Lifecycle>)
    ensures Run(s, [ClosedAfterSubmit, Rerender(p)] + evs) == Run(s, evs)
  {
  }

  /** Mounted with no plan, closing puts the dialog back exactly where the
      mount did. Mounted with a plan whose list is not one empty row (a
      mount the plans page never makes), the two copies part ways after a
      close. */
  lemma CloseResets(s: Session, editing: Option<Plan>)
    ensures s.defaults == [""] ==> HandleClose(s) == Mount(None)
    ensures editing.Some? && editing.value.features != [""] ==>
      HandleClose(Mount(editing)).rows != HandleClose(Mount(editing)).formFeatures
  {
  }
}
