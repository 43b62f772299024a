/** `Wizard`: a step index and a data dictionary kept in the session under
    keys namespaced by the wizard's name, index navigation with its bounds,
    the progress fraction, the navigation buttons of `render`, and
    `show_step_indicator`. Streamlit's rendering is left out; a button press
    is an explicit argument. */
module WizardNavigation {
  import opened Base

  /** An opaque value stored by `set_data`. */
  datatype Datum = Datum(id: nat)

  /** The session entries a wizard uses. */
  datatype Entry = Index(i: int) | Data(d: map<string, Datum>)

  /** A `WizardStep`: its title, description and the validation error its
      render function left (None and "" both count as no error). */
  datatype WizardStep = WizardStep(title: string, description: string, validationError: Option<string>)

  /** The buttons `render` may show. */
  datatype Button = Previous | Home | Next | Finish

  /** How `show_step_indicator` marks a step. */
  datatype Mark = Done | Current | Upcoming

  function IndexKey(name: string): string
  {
    "wizard_" + name + "_current_step"
  }

  function DataKey(name: string): string
  {
    "wizard_" + name + "_data"
  }

  /** Wizards with different names never share a session key, and a
      wizard's two keys differ from each other. */
  lemma KeysNamespaced(n1: string, n2: string)
    ensures IndexKey(n1) != DataKey(n2)
    ensures n1 != n2 ==> IndexKey(n1) != IndexKey(n2) && DataKey(n1) != DataKey(n2)
  {
    var a, b := IndexKey(n1), DataKey(n2);
    assert a[|a| - 1] == 'p' && b[|b| - 1] == 'a';
    if IndexKey(n1) == IndexKey(n2) {
      assert IndexKey(n1)[7..|IndexKey(n1)| - 13] == n1;
      assert IndexKey(n2)[7..|IndexKey(n2)| - 13] == n2;
    }
    if DataKey(n1) == DataKey(n2) {
      assert DataKey(n1)[7..|DataKey(n1)| - 5] == n1;
      assert DataKey(n2)[7..|DataKey(n2)| - 5] == n2;
    }
  }

  /** A write to one wizard's key leaves another wizard's keys as they were. */
  lemma OtherWizardUntouched(values: map<string, Entry>, a: string, b: string, k: string, e: Entry)
    requires a != b
    requires k == IndexKey(a) || k == DataKey(a)
    ensures IndexKey(b) in values[k := e] <==> IndexKey(b) in values
    ensures DataKey(b) in values[k := e] <==> DataKey(b) in values
    ensures IndexKey(b) in values ==> values[k := e][IndexKey(b)] == values[IndexKey(b)]
    ensures DataKey(b) in values ==> values[k := e][DataKey(b)] == values[DataKey(b)]
  {
    KeysNamespaced(a, b);
    KeysNamespaced(b, a);
  }

  /** `not step.validation_error`. */
  predicate BlocksNext(s: WizardStep)
  {
    s.validationError.Some? && s.validationError.value != ""
  }

  /** `next_step`: one step on, unless at the last step. With no steps at
      all `is_last_step` is never true, so the index runs on. */
  function NextIndex(i: int, n: nat): (r: int)
    ensures i == n - 1 ==> r == i
    ensures i != n - 1 ==> r == i + 1
  {
    if i == n - 1 then i else i + 1
  }

  /** `previous_step`: one step back, unless at the first step. */
  function PreviousIndex(i: int): (r: int)
    ensures i == 0 ==> r == i
    ensures i != 0 ==> r == i - 1
  {
    if i == 0 then i else i - 1
  }

  /** `go_to_step`: out-of-range targets are ignored. */
  function GoToIndex(i: int, n: nat, target: int): (r: int)
    ensures 0 <= target < n ==> r == target
    ensures !(0 <= target < n) ==> r == i
  {
    if 0 <= target < n then target else i
  }

  /** Which buttons `render` shows at index `i` of `n` steps. */
  predicate Shown(b: Button, i: int, n: nat)
  {
    match b
    case Previous => i != 0
    case Home => i != 0 && i != n - 1
    case Next => i != n - 1
    case Finish => i == n - 1
  }

  /** The index after pressing `b` in `render`: a hidden button does
      nothing, Next is refused while the step reports an error, Home goes
      back to the first step, Finish only celebrates. */
  function AfterPress(i: int, steps: seq<WizardStep>, b: Button): int
    requires 0 <= i < |steps|
  {
    if !Shown(b, i, |steps|) then i
    else match b
      case Previous => PreviousIndex(i)
      case Home => 0
      case Next => if BlocksNext(steps[i]) then i else NextIndex(i, |steps|)
      case Finish => i
  }

  /** Navigation never leaves the range of steps. */
  lemma NavigationInRange(i: int, steps: seq<WizardStep>, b: Button, target: int)
    requires 0 <= i < |steps|
    ensures 0 <= NextIndex(i, |steps|) < |steps|
    ensures 0 <= PreviousIndex(i) < |steps|
    ensures 0 <= GoToIndex(i, |steps|, target) < |steps|
    ensures 0 <= AfterPress(i, steps, b) < |steps|
  {
  }

  /** Next through `render` moves on exactly when it is shown and the step
      has no validation error. */
  lemma NextNeedsNoError(i: int, steps: seq<WizardStep>)
    requires 0 <= i < |steps|
    ensures AfterPress(i, steps, Next) == i + 1 <==> i < |steps| - 1 && !BlocksNext(steps[i])
    ensures AfterPress(i, steps, Next) != i + 1 ==> AfterPress(i, steps, Next) == i
  {
  }

  /** A wizard without steps has no last step, so `next_step` keeps going. */
  lemma EmptyWizardRunsOn(i: int)
    requires i >= 0
    ensures NextIndex(i, 0) == i + 1
  {
  }

  /** The bar of `render`: index / (len - 1); None where Python divides by
      zero, that is for a one-step wizard. */
  function Progress(i: int, n: nat): (p: Option<real>)
    ensures p.None? <==> n == 1
  {
    if n == 1 then None else Some(i as real / (n - 1) as real)
  }

  /** With at least two steps the bar is in [0, 1], empty at the first step
      and full at the last. */
  lemma ProgressBounds(i: int, n: nat)
    requires n >= 2 && 0 <= i < n
    ensures Progress(i, n).Some?
    ensures 0.0 <= Progress(i, n).value <= 1.0
    ensures Progress(i, n).value == 0.0 <==> i == 0
    ensures Progress(i, n).value == 1.0 <==> i == n - 1
  {
    RatioBounds(i as real, (n - 1) as real);
  }

  /** A share `x / d` of a positive whole `d` lies in [0, 1], and is 0 or 1
      exactly at the ends. */
  lemma RatioBounds(x: real, d: real)
    requires d > 0.0 && 0.0 <= x <= d
    ensures 0.0 <= x / d <= 1.0
    ensures x / d == 0.0 <==> x == 0.0
    ensures x / d == 1.0 <==> x == d
  {
    var q := x / d;
    assert q * d == x;
    assert (1.0 - q) * d == d - x;
  }

  function Indicator(i: int, current: int): (m: Mark)
  {
    if i < current then Done else if i == current then Current else Upcoming
  }

  /** `show_step_indicator`: one mark per step. */
  function Indicators(n: nat, current: int): (marks: seq<Mark>)
    ensures |marks| == n
  {
    seq(n, i requires 0 <= i < n => Indicator(i, current))
  }

  /** Steps before the current one are done, the current one is marked, the
      rest are to come; exactly one step is current when the index is in
      range. */
  lemma IndicatorTrichotomy(n: nat, current: int)
    ensures forall i :: 0 <= i < n ==>
      (Indicators(n, current)[i] == Done <==> i < current)
      && (Indicators(n, current)[i] == Current <==> i == current)
      && (Indicators(n, current)[i] == Upcoming <==> i > current)
    ensures 0 <= current < n ==> forall i :: 0 <= i < n && Indicators(n, current)[i] == Current ==> i == current
  {
  }

  /** `st.session_state`, restricted to what wizards keep in it. */
  class Session {
    var values: map<string, Entry>

    constructor(values: map<string, Entry>)
      ensures this.values == values
    {
      this.values := values;
    }
  }

  class Wizard {
    const name: string
    const steps: seq<WizardStep>
    const session: Session

    /** The wizard's index is set, and its data key, when present, holds a
        dictionary. */
    ghost predicate Valid()
      reads session
    {
      IndexKey(name) in session.values && session.values[IndexKey(name)].Index?
      && (DataKey(name) in session.values ==> session.values[DataKey(name)].Data?)
    }

    /** `__init__`: the index and the dictionary are created only when
        missing; existing ones, and every other key, are kept. */
    constructor(name: string, steps: seq<WizardStep>, session: Session)
      requires IndexKey(name) in session.values ==> session.values[IndexKey(name)].Index?
      requires DataKey(name) in session.values ==> session.values[DataKey(name)].Data?
      modifies session
      ensures this.name == name && this.steps == steps && this.session == session
      ensures Valid() && DataKey(name) in session.values
      ensures IndexKey(name) in old(session.values) ==> session.values[IndexKey(name)] == old(session.values)[IndexKey(name)]
      ensures IndexKey(name) !in old(session.values) ==> session.values[IndexKey(name)] == Index(0)
      ensures DataKey(name) in old(session.values) ==> session.values[DataKey(name)] == old(session.values)[DataKey(name)]
      ensures DataKey(name) !in old(session.values) ==> session.values[DataKey(name)] == Data(map[])
      ensures forall k :: k != IndexKey(name) && k != DataKey(name) ==>
        (k in session.values <==> k in old(session.values))
        && (k in session.values ==> session.values[k] == old(session.values)[k])
    {
      this.name := name;
      this.steps := steps;
      this.session := session;
      KeysNamespaced(name, name);
      new;
      if "wizard_" + name + "_current_step" !in session.values {
        session.values := session.values["wizard_" + name + "_current_step" := Index(0)];
      }
      if "wizard_" + name + "_data" !in session.values {
        session.values := session.values["wizard_" + name + "_data" := Data(map[])];
      }
    }

    /** `current_step_index`. */
    function CurrentIndex(): (i: int)
      reads this, session
      requires Valid()
      ensures i == session.values[IndexKey(name)].i
    {
      session.values[IndexKey(name)].i
    }

    /** `get_data`: the wizard's dictionary, or an empty one. */
    function GetData(): (d: map<string, Datum>)
      reads this, session
      requires Valid()
      ensures DataKey(name) in session.values ==> d == session.values[DataKey(name)].d
      ensures DataKey(name) !in session.values ==> d == map[]
    {
      if DataKey(name) in session.values then session.values[DataKey(name)].d else map[]
    }

    function IsFirstStep(): (b: bool)
      reads this, session
      requires Valid()
      ensures b <==> CurrentIndex() == 0
    {
      CurrentIndex() == 0
    }

    function IsLastStep(): (b: bool)
      reads this, session
      requires Valid()
      ensures b <==> CurrentIndex() == |steps| - 1
    {
      CurrentIndex() == |steps| - 1
    }

    /** `set_data`: writes one key of the wizard's dictionary. */
    method SetData(key: string, value: Datum)
      requires Valid()
      modifies session
      ensures Valid()
      ensures session.values == old(session.values)[DataKey(name) := Data(old(GetData())[key := value])]
    {
      var dataKey := "wizard_" + name + "_data";
      if dataKey !in session.values {
        session.values := session.values[dataKey := Data(map[])];
      }
      session.values := session.values[dataKey := Data(session.values[dataKey].d[key := value])];
      KeysNamespaced(name, name);
    }

    method SetIndex(value: int)
      requires Valid()
      modifies session
      ensures Valid()
      ensures session.values == old(session.values)[IndexKey(name) := Index(value)]
    {
      session.values := session.values["wizard_" + name + "_current_step" := Index(value)];
      KeysNamespaced(name, name);
    }

    /** No write: the index stays what it was. */
    lemma Unchanged()
      requires Valid()
      ensures session.values == session.values[IndexKey(name) := Index(CurrentIndex())]
    {
    }

    method NextStep()
      requires Valid()
      modifies session
      ensures Valid()
      ensures session.values == old(session.values)[IndexKey(name) := Index(NextIndex(old(CurrentIndex()), |steps|))]
    {
      if !IsLastStep() {
        SetIndex(CurrentIndex() + 1);
      } else {
        Unchanged();
      }
    }

    method PreviousStep()
      requires Valid()
      modifies session
      ensures Valid()
      ensures session.values == old(session.values)[IndexKey(name) := Index(PreviousIndex(old(CurrentIndex())))]
    {
      if !IsFirstStep() {
        SetIndex(CurrentIndex() - 1);
      } else {
        Unchanged();
      }
    }

    method GoToStep(index: int)
      requires Valid()
      modifies session
      ensures Valid()
      ensures session.values == old(session.values)[IndexKey(name) := Index(GoToIndex(old(CurrentIndex()), |steps|, index))]
    {
      if 0 <= index < |steps| {
        SetIndex(index);
      } else {
        Unchanged();
      }
    }

    /** The navigation part of `render` for one pressed button. */
    method Press(b: Button)
      requires Valid() && 0 <= CurrentIndex() < |steps|
      modifies session
      ensures Valid()
      ensures session.values == old(session.values)[IndexKey(name) := Index(AfterPress(old(CurrentIndex()), steps, b))]
    {
      var i := CurrentIndex();
      match b {
        case Previous =>
          if !IsFirstStep() {
            PreviousStep();
          } else {
            Unchanged();
          }
        case Home =>
          if !IsFirstStep() && !IsLastStep() {
            SetIndex(0);
          } else {
            Unchanged();
          }
        case Next =>
          if !IsLastStep() && !BlocksNext(steps[i]) {
            NextStep();
          } else {
            Unchanged();
          }
        case Finish =>
          Unchanged();
      }
    }
  }
}
