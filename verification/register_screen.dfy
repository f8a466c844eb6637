/**
 * The Register screen as an object: its state variables and its scan latch
 * are fields, and each event handler is a method that updates them step by
 * step. Every method is proved to perform the matching transition of
 * `RegisterFlow` and to keep the flow's invariant.
 */
module RegisterScreen {
  import opened Wrappers
  import opened Alerts
  import opened Materials
  import opened RegisterFlow
  import JsString

  class Screen {
    var step: Step
    var scannedData: Option<string>
    var selectedCategory: Option<Category>
    var selectedMaterial: Option<string>
    var weight: string
    var isTorchOn: bool
    /** The `isProcessingScan` latch. */
    var isProcessingScan: bool
    /** Whether a rejected scan's retry alert is on screen. */
    var retryPending: bool

    /** The fields, as a flow state. */
    function State(): FlowState
      reads this
    {
      FlowState(step, scannedData, selectedCategory, selectedMaterial, weight, isTorchOn, isProcessingScan, retryPending)
    }

    predicate Valid()
      reads this
    {
      Inv(State())
    }

    /** The screen mounts scanning, with nothing scanned or selected, the torch off and the latch open. */
    constructor()
      ensures Valid() && State() == Initial
    {
      step := Scanning;
      scannedData := None;
      selectedCategory := None;
      selectedMaterial := None;
      weight := "";
      isTorchOn := false;
      isProcessingScan := false;
      retryPending := false;
      InitialInv();
    }

    /**
     * `handleBackPress`: undo the most recent selection, or navigate back. The
     * tab navigator hides the header, so its back button is never drawn and
     * this runs only from the hardware back listener in the form.
     */
    method HandleBackPress() returns (leave: bool)
      requires Valid() && step == Form
      modifies this
      ensures Valid()
      ensures State() == Back(old(State())).state
      ensures leave == Back(old(State())).leave
    {
      ghost var s0 := State();
      ApplyKeepsInv(s0, HardwareBackPressed);
      if selectedMaterial.Some? {
        selectedMaterial := None;
        return false;
      }
      if selectedCategory.Some? {
        selectedCategory := None;
        return false;
      }
      leave := true;
    }

    /**
     * The hardware back listener: in the form it runs `handleBackPress` and
     * consumes the event; while scanning it declines it, and the navigator's
     * own back action then moves away from the tab, which stays mounted.
     */
    method OnBackPress() returns (consumed: bool, leave: bool)
      requires Valid() && Available(State(), HardwareBackPressed)
      modifies this
      ensures Valid()
      ensures (Reaction(State(), None, leave), consumed) == HardwareBack(old(State()))
    {
      if step == Form {
        leave := HandleBackPress();
        consumed := true;
      } else {
        consumed, leave := false, false;
      }
    }

    /** `toggleTorch`. */
    method ToggleTorch()
      requires Valid() && Available(State(), TorchPressed)
      modifies this
      ensures Valid()
      ensures State() == RegisterFlow.ToggleTorch(old(State())).state
    {
      isTorchOn := !isTorchOn;
    }

    /**
     * `handleBarCodeScanned`: ignored while the latch is set; otherwise the
     * latch is set first, then the payload is validated. A rejected payload
     * raises its alert and leaves the retry alert standing; an accepted one
     * turns the torch off, records the site id and opens the form.
     */
    method HandleBarCodeScanned(data: Option<string>) returns (alert: Option<Alert>)
      requires Valid()
      modifies this
      ensures Valid()
      ensures State() == Scan(old(State()), data).state
      ensures alert == Scan(old(State()), data).alert
    {
      ghost var s0 := State();
      ApplyKeepsInv(s0, Scanned(data));
      if isProcessingScan {
        return None;
      }
      isProcessingScan := true;
      match ParseScan(data)
      case InvalidCode =>
        retryPending := true;
        alert := Some(InvalidCodeAlert);
      case MalformedCode =>
        retryPending := true;
        alert := Some(MalformedCodeAlert);
      case SiteId(id) =>
        isTorchOn := false;
        scannedData := Some(id);
        step := Form;
        alert := None;
    }

    /** The retry alert's "Tentar Novamente" button: close the alert and release the latch. */
    method DismissAlert()
      requires Valid() && Available(State(), RetryPressed)
      modifies this
      ensures Valid()
      ensures State() == DismissRetry(old(State())).state
    {
      isProcessingScan := false;
      retryPending := false;
    }

    /** A category button of the form: `setSelectedCategory(category)`. */
    method SelectCategory(c: Category)
      requires Valid() && Available(State(), CategoryPressed(c))
      modifies this
      ensures Valid()
      ensures State() == RegisterFlow.SelectCategory(old(State()), c).state
    {
      selectedCategory := Some(c);
    }

    /** An item button of the selected category: `setSelectedMaterial(item.name)`. */
    method SelectMaterial(name: string)
      requires Valid() && Available(State(), MaterialPressed(name))
      modifies this
      ensures Valid()
      ensures State() == RegisterFlow.SelectMaterial(old(State()), name).state
    {
      selectedMaterial := Some(name);
    }

    /** The weight field's `onChangeText`. */
    method SetWeight(text: string)
      requires Valid() && Available(State(), WeightTyped(text))
      modifies this
      ensures Valid()
      ensures State() == TypeWeight(old(State()), text).state
    {
      weight := text;
    }

    /**
     * `handleSubmit`: an alert and no change without a material or with a
     * blank weight; otherwise the success alert and a navigation back; the
     * fields, and so the filled form, stay as they were.
     */
    method HandleSubmit() returns (alert: Option<Alert>, leave: bool)
      requires Valid() && Available(State(), SubmitPressed)
      modifies this
      ensures Valid()
      ensures State() == old(State())
      ensures alert == Submit(old(State())).alert && leave == Submit(old(State())).leave
    {
      if selectedMaterial.None? || JsString.IsBlank(weight) {
        return Some(SubmitErrorAlert), false;
      }
      alert, leave := Some(SubmitSuccessAlert), true;
    }

    /** "Cancelar e Escanear Novamente": back to scanning, latch released, selections cleared. */
    method Cancel()
      requires Valid() && Available(State(), CancelPressed)
      modifies this
      ensures Valid()
      ensures State() == RegisterFlow.Cancel(old(State())).state
    {
      step := Scanning;
      isProcessingScan := false;
      selectedCategory := None;
      selectedMaterial := None;
    }
  }
}
