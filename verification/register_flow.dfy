/**
 * The disposal-registration flow of the Register screen, as values: its state,
 * the scan validation, one transition function per event handler, and the
 * properties those transitions keep. The Register screen class runs the same
 * transitions on its fields.
 */
module RegisterFlow {
  import opened Wrappers
  import opened Alerts
  import opened Materials
  import JsString
  import IconLookup

  // ---------------------------------------------------------------------------
  // The Register screen's own copy of the material table
  // ---------------------------------------------------------------------------

  /** The table the Register screen declares for itself. */
  const RegisterCategories: seq<Category> := [
    Category("Recicláveis Comuns", Icon("MaterialCommunityIcons", "recycle"), [
      Item("Papéis/Papelão", Icon("Ionicons", "newspaper-outline")),
      Item("Plásticos", Icon("MaterialCommunityIcons", "toy-brick")),
      Item("Vidros", Icon("MaterialCommunityIcons", "bottle-wine-outline")),
      Item("Metais", Icon("MaterialCommunityIcons", "magnet-on"))
    ]),
    Category("Construção Civil", Icon("Ionicons", "hammer"), [
      Item("Entulho", Icon("FontAwesome6", "bucket")),
      Item("Madeiras", Icon("FontAwesome6", "tree")),
      Item("Cerâmicas", Icon("MaterialCommunityIcons", "texture-box"))
    ]),
    Category("Móveis e Eletrodomésticos", Icon("Ionicons", "home"), [
      Item("Móveis", Icon("MaterialCommunityIcons", "sofa")),
      Item("Eletrodomésticos", Icon("MaterialCommunityIcons", "washing-machine"))
    ]),
    Category("Pneus", Icon("MaterialCommunityIcons", "tire"), [
      Item("Pneus Usados", Icon("MaterialCommunityIcons", "tire"))
    ]),
    Category("Resíduos Eletrônicos", Icon("FontAwesome6", "computer-mouse"), [
      Item("Celulares", Icon("Ionicons", "phone-portrait-outline")),
      Item("Computadores", Icon("FontAwesome6", "computer")),
      Item("TVs e Rádios", Icon("FontAwesome6", "radio"))
    ])
  ]

  /**
   * The Register copy is the shared table with one item renamed: the first item
   * of the first category is "Papéis/Papelão" here and "Papéis e Papelão" there.
   */
  lemma RegisterCopyDiffers()
    ensures |RegisterCategories| == |Categories|
    ensures forall i :: 1 <= i < |Categories| ==> RegisterCategories[i] == Categories[i]
    ensures RegisterCategories[0].name == Categories[0].name && RegisterCategories[0].icon == Categories[0].icon
    ensures RegisterCategories[0].items[1..] == Categories[0].items[1..]
    ensures RegisterCategories[0].items[0] == Categories[0].items[0].(name := "Papéis/Papelão")
    ensures Categories[0].items[0].name == "Papéis e Papelão"
  {
  }

  /**
   * A disposal recorded under the Register copy's name for paper gets the
   * default icon in the history lists, while the shared name gets the paper icon.
   */
  lemma RegisterPaperNameFallsBack()
    ensures RegisterCategories[0].items[0].name == "Papéis/Papelão"
    ensures IconLookup.GetIconForMaterial(Categories, "Papéis/Papelão") == IconLookup.DefaultIcon
    ensures IconLookup.GetIconForMaterial(Categories, "Papéis e Papelão") == RegisterCategories[0].items[0].icon
  {
    IconLookup.NotAnItemName("Papéis/Papelão");
    IconLookup.DefaultIffUnknown("Papéis/Papelão");
    SharedPaperIcon();
  }

  /** The shared table's paper item is found with the paper icon. */
  lemma SharedPaperIcon()
    ensures IconLookup.GetIconForMaterial(Categories, "Papéis e Papelão") == Icon("Ionicons", "newspaper-outline")
  {
    SharedItems();
    assert AllItems(Categories)[0] == Categories[0].items[0];
    IconLookup.LookupByUniqueName(0);
  }

  /** Item names of the Register copy are never empty, so a selected material is always truthy. */
  lemma RegisterItemNamesNonEmpty()
    ensures forall i, j :: 0 <= i < |RegisterCategories| && 0 <= j < |RegisterCategories[i].items| ==>
      RegisterCategories[i].items[j].name != ""
  {
  }

  // ---------------------------------------------------------------------------
  // Scan validation
  // ---------------------------------------------------------------------------

  /** Every accepted payload starts with this literal. */
  const ScanPrefix: string := "ecoponto+::"

  /** The payload's field delimiter. */
  const Delimiter: string := "::"

  /** The verdict on a scanned payload. */
  datatype ScanVerdict = InvalidCode | MalformedCode | SiteId(id: string)

  /**
   * The validation in `handleBarCodeScanned`: an absent or empty payload, or
   * one without the prefix, is invalid; a prefixed payload that does not split
   * into exactly three fields on "::" is malformed; otherwise the second field
   * is the site id.
   */
  function ParseScan(data: Option<string>): ScanVerdict {
    if data.None? || data.value == "" || !JsString.StartsWith(data.value, ScanPrefix) then InvalidCode
    else
      var parts := JsString.Split(data.value, Delimiter);
      if |parts| != 3 then MalformedCode else SiteId(parts[1])
  }

  /**
   * `id` and `t` can follow the prefix as the second and third fields: no
   * "::" inside either, and `id` does not end in ':' (which would move the cut
   * one character to the left).
   */
  predicate WellDelimited(id: string, t: string) {
    JsString.NoMatch(id + [':'], Delimiter) && JsString.NoMatch(t, Delimiter)
  }

  /** The payload is the prefix, then `id`, then "::", then a third field. */
  ghost predicate EncodesSite(p: string, id: string) {
    exists t :: p == ScanPrefix + id + Delimiter + t && WellDelimited(id, t)
  }

  /** No "::" can start inside the prefix's first field "ecoponto+". */
  lemma NoMatchInPrefixHead(p: string, j: int)
    requires JsString.StartsWith(p, ScanPrefix) && 0 <= j < 9
    ensures !JsString.MatchAt(p, Delimiter, j)
  {
    assert p[j] == p[..11][j] == ScanPrefix[j];
    assert p[j..j + 2][0] == p[j] != ':';
  }

  /** A well-delimited pair splits into exactly those two fields. */
  lemma SplitTwoFields(id: string, t: string)
    requires WellDelimited(id, t)
    ensures JsString.Split(id + Delimiter + t, Delimiter) == [id, t]
  {
    var rest := id + Delimiter + t;
    var pre := id + [':'];
    assert rest[..|id| + 1] == pre;
    forall j | 0 <= j < |id| ensures !JsString.MatchAt(rest, Delimiter, j) {
      assert !JsString.MatchAt(pre, Delimiter, j);
      assert rest[j..j + 2] == pre[j..j + 2];
    }
    JsString.SplitFirst(id, Delimiter, t);
    JsString.SplitNone(t, Delimiter);
  }

  /** A string that splits into two fields is those fields around "::", split cleanly. */
  lemma TwoFieldsShape(rest: string)
    requires |JsString.Split(rest, Delimiter)| == 2
    ensures var parts := JsString.Split(rest, Delimiter);
      rest == parts[0] + Delimiter + parts[1] && WellDelimited(parts[0], parts[1])
  {
    var i := JsString.IndexOf(rest, Delimiter, 0);
    var t := rest[i + 2..];
    assert JsString.Split(rest, Delimiter) == [rest[..i]] + JsString.Split(t, Delimiter);
    assert JsString.IndexOf(t, Delimiter, 0) == -1;
    assert JsString.Split(t, Delimiter) == [t];
    assert rest[i..i + 2] == Delimiter;
    assert rest == rest[..i] + Delimiter + t;
    var pre := rest[..i] + [':'];
    assert rest[..i + 1] == pre;
    forall j | 0 <= j <= |pre| - 2 ensures !JsString.MatchAt(pre, Delimiter, j) {
      assert !JsString.MatchAt(rest, Delimiter, j);
      assert rest[j..j + 2] == pre[j..j + 2];
    }
  }

  /** A well-delimited site id and trailing field are accepted, and the id comes back. */
  lemma ParseAccepts(id: string, t: string)
    requires WellDelimited(id, t)
    ensures ParseScan(Some(ScanPrefix + id + Delimiter + t)) == SiteId(id)
  {
    var p := ScanPrefix + id + Delimiter + t;
    assert JsString.StartsWith(p, ScanPrefix) && p[11..] == id + Delimiter + t by {
      assert p[..|ScanPrefix|] == ScanPrefix;
    }
    assert JsString.Split(p, Delimiter) == ["ecoponto+", id, t] by {
      PrefixedFirstCut(p);
      SplitTwoFields(id, t);
    }
  }


  /** The first "::" of a prefixed payload is the prefix's own. */
  lemma PrefixedFirstCut(p: string)
    requires JsString.StartsWith(p, ScanPrefix)
    ensures JsString.Split(p, Delimiter) == ["ecoponto+"] + JsString.Split(p[11..], Delimiter)
  {
    assert |Delimiter| == 2 && |ScanPrefix| == 11;
    var i := JsString.IndexOf(p, Delimiter, 0);
    assert JsString.MatchAt(p, Delimiter, 9) by {
      assert p[9..11] == p[..11][9..11] == ScanPrefix[9..11] == Delimiter;
    }
    if 0 <= i < 9 {
      NoMatchInPrefixHead(p, i);
    }
    assert i == 9;
    assert p[..9] == p[..11][..9] == ScanPrefix[..9] == "ecoponto+";
  }

  /** An accepted payload has exactly the shape the prefix, the id and one more field give. */
  lemma ParseAcceptedShape(p: string, id: string)
    requires ParseScan(Some(p)) == SiteId(id)
    ensures EncodesSite(p, id)
  {
    var rest := p[11..];
    assert JsString.Split(p, Delimiter) == ["ecoponto+"] + JsString.Split(rest, Delimiter) by {
      PrefixedFirstCut(p);
    }
    var parts := JsString.Split(rest, Delimiter);
    assert rest == parts[0] + Delimiter + parts[1] && WellDelimited(parts[0], parts[1]) by {
      TwoFieldsShape(rest);
    }
    assert parts[0] == id;
    assert p == ScanPrefix + rest by {
      assert p[..11] == ScanPrefix;
    }
    assert p == ScanPrefix + id + Delimiter + parts[1];
  }


  /**
   * Scan validation accepts a payload with site id `id` exactly when the
   * payload is the prefix, `id`, "::" and a third field, split cleanly.
   */
  lemma ParseScanIff(p: string, id: string)
    ensures ParseScan(Some(p)) == SiteId(id) <==> EncodesSite(p, id)
  {
    if ParseScan(Some(p)) == SiteId(id) {
      ParseAcceptedShape(p, id);
    }
    if EncodesSite(p, id) {
      var t :| p == ScanPrefix + id + Delimiter + t && WellDelimited(id, t);
      ParseAccepts(id, t);
    }
  }

  /** A field without ':' contains no "::" and can take a trailing ':' without gaining one. */
  lemma ColonFree(s: string)
    requires ':' !in s
    ensures JsString.NoMatch(s, Delimiter) && JsString.NoMatch(s + [':'], Delimiter)
  {
    var pre := s + [':'];
    forall j | 0 <= j <= |pre| - 2 ensures !JsString.MatchAt(pre, Delimiter, j) {
      assert pre[j] == s[j] != ':';
      assert pre[j..j + 2][0] == pre[j];
    }
    forall j | 0 <= j <= |s| - 2 ensures !JsString.MatchAt(s, Delimiter, j) {
      assert s[j..j + 2][0] == s[j] != ':';
    }
  }

  /** Round trip: a site id and a third field without any ':' are read back as that site id. */
  lemma ScanRoundTrip(s: string, t: string)
    requires ':' !in s && ':' !in t
    ensures ParseScan(Some(ScanPrefix + s + Delimiter + t)) == SiteId(s)
  {
    ColonFree(s);
    ColonFree(t);
    ParseAccepts(s, t);
  }

  /** A payload is rejected as invalid exactly when it is absent or lacks the prefix. */
  lemma InvalidIffUnprefixed(data: Option<string>)
    ensures ParseScan(data) == InvalidCode <==> data.None? || !JsString.StartsWith(data.value, ScanPrefix)
  {
  }

  /** A payload of the documented form is accepted with its middle field as the site id. */
  lemma ValidCodeExample()
    ensures ParseScan(Some("ecoponto+::site42::v1")) == SiteId("site42")
  {
    assert ScanPrefix + "site42" + Delimiter + "v1" == "ecoponto+::site42::v1";
    ScanRoundTrip("site42", "v1");
  }

  /** A payload without the prefix, or no payload at all, is invalid. */
  lemma InvalidCodeExamples()
    ensures ParseScan(Some("garbage")) == InvalidCode
    ensures ParseScan(None) == InvalidCode
  {
    assert "garbage"[0] != ScanPrefix[0];
  }

  /** A prefixed payload with no second "::" has only two fields and is malformed. */
  lemma MissingFieldMalformed(id: string)
    requires ':' !in id
    ensures ParseScan(Some(ScanPrefix + id)) == MalformedCode
  {
    var p := ScanPrefix + id;
    assert p[..11] == ScanPrefix;
    PrefixedFirstCut(p);
    assert p[11..] == id;
    ColonFree(id);
    JsString.SplitNone(id, Delimiter);
  }

  /** A prefixed payload with one "::" too many has four fields and is malformed. */
  lemma ExtraFieldMalformed(a: string, b: string, c: string)
    requires ':' !in a && ':' !in b && ':' !in c
    ensures ParseScan(Some(ScanPrefix + a + Delimiter + b + Delimiter + c)) == MalformedCode
  {
    var p := ScanPrefix + a + Delimiter + b + Delimiter + c;
    var tail := b + Delimiter + c;
    var rest := a + Delimiter + tail;
    assert JsString.StartsWith(p, ScanPrefix) && p[11..] == rest by {
      assert p == ScanPrefix + rest;
    }
    assert |JsString.Split(rest, Delimiter)| == 3 by {
      ColonFree(b);
      ColonFree(c);
      SplitTwoFields(b, c);
      forall j | 0 <= j < |a| ensures !JsString.MatchAt(rest, Delimiter, j) {
        assert rest[j..j + 2][0] == rest[j] == a[j] != ':';
      }
      JsString.SplitFirst(a, Delimiter, tail);
    }
    PrefixedFirstCut(p);
  }


  // ---------------------------------------------------------------------------
  // Flow state and alerts
  // ---------------------------------------------------------------------------

  datatype Step = Scanning | Form

  /**
   * The screen's state: the step, the scanned site id, the selected category
   * and material, the weight text, the torch, the scan latch, and whether the
   * retry alert of a rejected scan is on screen.
   */
  datatype FlowState = FlowState(
    step: Step,
    scannedData: Option<string>,
    category: Option<Category>,
    material: Option<string>,
    weight: string,
    torchOn: bool,
    processingScan: bool,
    retryPending: bool)

  /**
   * What a handler leaves behind: the new state, an alert raised, and whether
   * it navigates away. The screen is a bottom tab, so navigating away only
   * switches tabs: the screen stays mounted and keeps its state.
   */
  datatype Reaction = Reaction(state: FlowState, alert: Option<Alert>, leave: bool)

  const InvalidCodeAlert: Alert :=
    Alert("QR Code Inválido", "Este não parece ser um QR Code de um Ecoponto válido.")

  const MalformedCodeAlert: Alert :=
    Alert("QR Code Malformado", "O formato deste QR Code de Ecoponto é inválido.")

  const SubmitErrorAlert: Alert := Alert("Erro", "Por favor, selecione um material e insira o peso.")

  const SubmitSuccessAlert: Alert := Alert("Sucesso!", "Descarte registrado com sucesso!")

  /** The state the screen mounts with. */
  const Initial: FlowState := FlowState(Scanning, None, None, None, "", false, false, false)

  /** The names of a category's items. */
  function ItemNamesOf(c: Category): seq<string> {
    Names(c.items)
  }

  /**
   * The flow's invariant: a material is selected only under a selected
   * category and is one of its items; the category comes from the table;
   * nothing is selected while scanning; the form is only shown for a scanned
   * site with the latch set; the retry alert only stands while the latch does.
   */
  predicate Inv(s: FlowState) {
    && (s.category.Some? ==> s.category.value in RegisterCategories)
    && (s.material.Some? ==> s.category.Some? && s.material.value in ItemNamesOf(s.category.value))
    && (s.step == Scanning ==> s.category.None? && s.material.None?)
    && (s.step == Form ==> s.processingScan && !s.retryPending && s.scannedData.Some?)
    && (s.retryPending ==> s.processingScan)
  }

  lemma InitialInv()
    ensures Inv(Initial) && Initial.step == Scanning && !Initial.processingScan
  {
  }

  // ---------------------------------------------------------------------------
  // Transitions, one per handler
  // ---------------------------------------------------------------------------

  /** Nothing changes and nothing is shown. */
  function Unchanged(s: FlowState): Reaction {
    Reaction(s, None, false)
  }

  /** `handleBackPress`: undo the material, else the category, else `navigation.goBack()`. */
  function Back(s: FlowState): Reaction {
    if s.material.Some? then Reaction(s.(material := None), None, false)
    else if s.category.Some? then Reaction(s.(category := None), None, false)
    else Reaction(s, None, true)
  }

  /**
   * The hardware back listener: in the form it runs `handleBackPress` and
   * consumes the event; while scanning it does not consume it.
   */
  function HardwareBack(s: FlowState): (Reaction, bool) {
    if s.step == Form then (Back(s), true) else (Unchanged(s), false)
  }

  /** `toggleTorch`. */
  function ToggleTorch(s: FlowState): Reaction {
    Reaction(s.(torchOn := !s.torchOn), None, false)
  }

  /** `handleBarCodeScanned`: ignored while latched; otherwise latch, then validate. */
  function Scan(s: FlowState, data: Option<string>): Reaction {
    if s.processingScan then Unchanged(s)
    else
      var latched := s.(processingScan := true);
      match ParseScan(data)
      case InvalidCode => Reaction(latched.(retryPending := true), Some(InvalidCodeAlert), false)
      case MalformedCode => Reaction(latched.(retryPending := true), Some(MalformedCodeAlert), false)
      case SiteId(id) => Reaction(latched.(torchOn := false, scannedData := Some(id), step := Form), None, false)
  }

  /** The retry alert's "Tentar Novamente" button: close the alert and release the latch. */
  function DismissRetry(s: FlowState): Reaction {
    Reaction(s.(processingScan := false, retryPending := false), None, false)
  }

  /** A category button: `setSelectedCategory(category)`. */
  function SelectCategory(s: FlowState, c: Category): Reaction {
    Reaction(s.(category := Some(c)), None, false)
  }

  /** An item button: `setSelectedMaterial(item.name)`. */
  function SelectMaterial(s: FlowState, name: string): Reaction {
    Reaction(s.(material := Some(name)), None, false)
  }

  /** The weight field's `onChangeText`. */
  function TypeWeight(s: FlowState, text: string): Reaction {
    Reaction(s.(weight := text), None, false)
  }

  /**
   * `handleSubmit`: without a material or with a blank weight it alerts and
   * stays; otherwise it reports success and navigates back. The state is not touched
   * either way; nothing is computed from the weight.
   */
  function Submit(s: FlowState): Reaction {
    if s.material.None? || JsString.IsBlank(s.weight) then Reaction(s, Some(SubmitErrorAlert), false)
    else Reaction(s, Some(SubmitSuccessAlert), true)
  }

  /** "Cancelar e Escanear Novamente": back to scanning, latch released, selections cleared. */
  function Cancel(s: FlowState): Reaction {
    Reaction(s.(step := Scanning, processingScan := false, category := None, material := None), None, false)
  }

  // ---------------------------------------------------------------------------
  // Events and runs
  // ---------------------------------------------------------------------------

  /**
   * Everything that can reach the screen's handlers. The header's back button
   * is not among them: the tab navigator hides the header, so only the
   * hardware back reaches `handleBackPress`.
   */
  datatype Event =
    | Scanned(data: Option<string>)
    | RetryPressed
    | HardwareBackPressed
    | CategoryPressed(category: Category)
    | MaterialPressed(name: string)
    | WeightTyped(text: string)
    | TorchPressed
    | CancelPressed
    | SubmitPressed

  /**
   * Whether the event can happen in this state: the camera always reports
   * scans; the retry button exists only on the retry alert, which is modal and
   * blocks every other control; the other controls exist only in the step and
   * selection state that renders them.
   */
  predicate Available(s: FlowState, e: Event) {
    match e
    case Scanned(_) => true
    case RetryPressed => s.retryPending
    case HardwareBackPressed => !s.retryPending
    case CategoryPressed(c) => !s.retryPending && s.step == Form && s.category.None? && c in RegisterCategories
    case MaterialPressed(name) =>
      !s.retryPending && s.step == Form && s.category.Some? && s.material.None?
      && name in ItemNamesOf(s.category.value)
    case WeightTyped(_) => !s.retryPending && s.step == Form && s.material.Some?
    case TorchPressed => !s.retryPending && s.step == Scanning
    case CancelPressed => !s.retryPending && s.step == Form
    case SubmitPressed => !s.retryPending && s.step == Form && s.material.Some?
  }

  /**
   * The handler an event runs. A hardware back the screen does not consume
   * falls through to the navigator's own back action, which moves away from
   * the tab without unmounting it.
   */
  function Apply(s: FlowState, e: Event): Reaction {
    match e
    case Scanned(data) => Scan(s, data)
    case RetryPressed => DismissRetry(s)
    case HardwareBackPressed =>
      var (r, consumed) := HardwareBack(s);
      if consumed then r else r.(leave := true)
    case CategoryPressed(c) => SelectCategory(s, c)
    case MaterialPressed(name) => SelectMaterial(s, name)
    case WeightTyped(text) => TypeWeight(s, text)
    case TorchPressed => ToggleTorch(s)
    case CancelPressed => Cancel(s)
    case SubmitPressed => Submit(s)
  }

  /**
   * The state after a sequence of events: events whose control is not on
   * screen do nothing. Navigating away does not end the run: the tab keeps
   * its state, and the user can come back to it.
   */
  function Run(s: FlowState, events: seq<Event>): FlowState
    decreases |events|
  {
    if events == [] then s
    else if !Available(s, events[0]) then Run(s, events[1..])
    else
      Run(Apply(s, events[0]).state, events[1..])
  }

  // ---------------------------------------------------------------------------
  // Properties
  // ---------------------------------------------------------------------------

  /** Every handler keeps the invariant when its control is available. */
  lemma ApplyKeepsInv(s: FlowState, e: Event)
    requires Inv(s) && Available(s, e)
    ensures Inv(Apply(s, e).state)
  {
  }

  /** The invariant holds after any sequence of events from any state that has it. */
  lemma {:induction false} RunKeepsInv(s: FlowState, events: seq<Event>)
    requires Inv(s)
    ensures Inv(Run(s, events))
    decreases |events|
  {
    if events != [] {
      if Available(s, events[0]) {
        ApplyKeepsInv(s, events[0]);
        RunKeepsInv(Apply(s, events[0]).state, events[1..]);
      } else {
        RunKeepsInv(s, events[1..]);
      }
    }
  }

  /** Every state the screen can reach satisfies the invariant. */
  lemma ReachableInv(events: seq<Event>)
    ensures Inv(Run(Initial, events))
  {
    InitialInv();
    RunKeepsInv(Initial, events);
  }

  /** While the latch is set a scan changes nothing and shows nothing. */
  lemma LatchedScanIgnored(s: FlowState, data: Option<string>)
    requires s.processingScan
    ensures Scan(s, data) == Unchanged(s)
  {
  }

  /**
   * An accepted scan sets the latch before anything else: whatever the
   * payload, the latch is set afterwards, so a second scan is ignored.
   */
  lemma ScanLatches(s: FlowState, data: Option<string>)
    ensures Scan(s, data).state.processingScan
    ensures Scan(Scan(s, data).state, data) == Unchanged(Scan(s, data).state)
  {
  }

  /**
   * At most one transition out of scanning: after one scan, any number of
   * further scans, before the latch is released, leave the state as it is.
   */
  lemma {:induction false} RepeatedScansIgnored(s: FlowState, first: Option<string>, more: seq<Option<string>>)
    ensures var after := Scan(s, first).state;
      Run(after, seq(|more|, i requires 0 <= i < |more| => Scanned(more[i]))) == after
    decreases |more|
  {
    var after := Scan(s, first).state;
    var events := seq(|more|, i requires 0 <= i < |more| => Scanned(more[i]));
    if more != [] {
      assert events[0] == Scanned(more[0]);
      assert events[1..] == seq(|more[1..]|, i requires 0 <= i < |more[1..]| => Scanned(more[1..][i]));
      assert Apply(after, events[0]) == Unchanged(after);
      RepeatedScansIgnored(s, first, more[1..]);
    }
  }

  /**
   * A payload rejected as invalid or malformed shows its alert and sets the
   * latch and the retry alert; the step, the site id, the selections, the
   * weight and the torch stay as they were.
   */
  lemma RejectedScan(s: FlowState, data: Option<string>)
    requires !s.processingScan && !ParseScan(data).SiteId?
    ensures var r := Scan(s, data);
      && r.state == s.(processingScan := true, retryPending := true)
      && r.alert == Some(if ParseScan(data) == InvalidCode then InvalidCodeAlert else MalformedCodeAlert)
      && !r.leave
  {
  }

  /** The retry button releases the latch, after which a scan is validated again. */
  lemma RetryRearms(s: FlowState, data: Option<string>)
    requires Inv(s) && s.retryPending
    ensures var d := DismissRetry(s).state;
      && !d.processingScan && !d.retryPending && d.step == Scanning
      && Scan(d, data).state.processingScan
      && (ParseScan(data).SiteId? ==> Scan(d, data).state.step == Form)
  {
  }

  /**
   * While the retry alert stands, "Tentar Novamente" is the only way out: every
   * other event that can happen, scans included, leaves the state as it is, so
   * the latch stays set.
   */
  lemma RetryOnlyRelease(s: FlowState, e: Event)
    requires Inv(s) && s.retryPending && Available(s, e) && e != RetryPressed
    ensures Apply(s, e).state == s
  {
  }

  /** Any run without "Tentar Novamente" leaves a state with the retry alert as it is. */
  lemma {:induction false} RetryBlocksRun(s: FlowState, events: seq<Event>)
    requires Inv(s) && s.retryPending
    requires forall i :: 0 <= i < |events| ==> events[i] != RetryPressed
    ensures Run(s, events) == s
    decreases |events|
  {
    if events != [] {
      if Available(s, events[0]) {
        RetryOnlyRelease(s, events[0]);
      }
      RetryBlocksRun(s, events[1..]);
    }
  }

  /**
   * An accepted payload opens the form for its site id with the torch off and
   * the latch left set; the selections and the weight are untouched.
   */
  lemma AcceptedScan(s: FlowState, data: Option<string>, id: string)
    requires !s.processingScan && ParseScan(data) == SiteId(id)
    ensures var r := Scan(s, data);
      && r.state == s.(processingScan := true, torchOn := false, scannedData := Some(id), step := Form)
      && r.alert.None? && !r.leave
  {
  }

  /** How many selections back presses can undo. */
  function Depth(s: FlowState): nat {
    (if s.category.Some? then 1 else 0) + (if s.material.Some? then 1 else 0)
  }

  /**
   * Back undoes exactly one selection, the most recent, and nothing else;
   * with nothing selected it navigates back. The invariant is kept.
   */
  lemma BackOneStep(s: FlowState)
    requires Inv(s)
    ensures var r := Back(s);
      && Inv(r.state) && r.alert.None?
      && r.state.(category := s.category, material := s.material) == s
      && (Depth(s) > 0 ==> Depth(r.state) == Depth(s) - 1 && !r.leave)
      && (Depth(s) > 0 && s.material.None? ==> r.state.category.None?)
      && (s.material.Some? ==> r.state.category == s.category)
      && (Depth(s) == 0 ==> r.state == s && r.leave)
  {
  }

  /** Back pressed `n` times, stopping at the first press that navigates back. */
  function BackTimes(s: FlowState, n: nat): Reaction
    decreases n
  {
    var r := Back(s);
    if n <= 1 || r.leave then r else BackTimes(r.state, n - 1)
  }

  /**
   * Pressing back once per selection clears the draft without leaving, and
   * one more press navigates back; the step, site id, weight, torch and latch survive.
   */
  lemma {:induction false} BackUnwinds(s: FlowState)
    requires Inv(s) && Depth(s) > 0
    ensures var r := BackTimes(s, Depth(s));
      && !r.leave && r.state.category.None? && r.state.material.None?
      && r.state == s.(category := None, material := None)
      && Back(r.state).leave
    decreases Depth(s)
  {
    BackOneStep(s);
    var r := Back(s);
    if Depth(s) > 1 {
      BackUnwinds(r.state);
    }
  }

  /**
   * The hardware back button in the form is the same operation as the header
   * back, and consumes the event; while scanning it changes nothing and is
   * passed on.
   */
  lemma HardwareBackMatchesBack(s: FlowState)
    ensures s.step == Form ==> HardwareBack(s) == (Back(s), true)
    ensures s.step == Scanning ==> HardwareBack(s) == (Unchanged(s), false)
  {
  }

  /**
   * Cancel returns to scanning with the latch released and no selection,
   * whatever the path that led to the form; the site id, the weight and the
   * torch are kept.
   */
  lemma CancelResets(events: seq<Event>)
    requires Run(Initial, events).step == Form
    ensures var s := Run(Initial, events);
      var c := Cancel(s).state;
      && c.step == Scanning && !c.processingScan && !c.retryPending
      && c.category.None? && c.material.None?
      && c.scannedData == s.scannedData && c.weight == s.weight && c.torchOn == s.torchOn
      && Inv(c)
  {
    ReachableInv(events);
  }

  /**
   * Submit is rejected, with its alert, exactly when no material is selected
   * or the weight is blank; otherwise it reports success and navigates back. It never
   * changes the state.
   */
  lemma SubmitGuard(s: FlowState)
    ensures Submit(s).state == s
    ensures Submit(s).alert == Some(SubmitErrorAlert) <==> s.material.None? || JsString.IsBlank(s.weight)
    ensures Submit(s).leave <==> s.material.Some? && !JsString.IsBlank(s.weight)
    ensures Submit(s).leave ==> Submit(s).alert == Some(SubmitSuccessAlert)
  {
  }

  /**
   * Every handler that navigates away leaves the state exactly as it was, so
   * coming back to the tab shows the same step, draft and latch.
   */
  lemma LeaveKeepsState(s: FlowState, e: Event)
    requires Apply(s, e).leave
    ensures Apply(s, e).state == s
    ensures e == HardwareBackPressed || e == SubmitPressed
  {
  }

  /**
   * A successful submit keeps the filled form with the latch set, so after
   * coming back to the tab the same disposal can be submitted again, and again
   * succeeds.
   */
  lemma {:induction false} ResubmitAfterSuccess(s: FlowState, n: nat)
    requires Available(s, SubmitPressed) && Submit(s).leave
    ensures Run(s, Presses(SubmitPressed, n)) == s
    ensures Submit(Run(s, Presses(SubmitPressed, n))) == Reaction(s, Some(SubmitSuccessAlert), true)
    decreases n
  {
    if n > 0 {
      assert Apply(s, SubmitPressed).state == s;
      RunStep(s, SubmitPressed, Presses(SubmitPressed, n - 1));
      ResubmitAfterSuccess(s, n - 1);
    }
  }

  /** The same event `n` times in a row. */
  function Presses(e: Event, n: nat): seq<Event>
    decreases n
  {
    if n == 0 then [] else [e] + Presses(e, n - 1)
  }

  /**
   * The whole happy path: scan a payload that names a site, pick a category,
   * then one of its items, type a weight that is not blank; the form then
   * holds exactly these, and submitting reports success and navigates back without
   * changing anything.
   */
  lemma HappyPath(payload: string, id: string, c: Category, name: string, w: string)
    requires ParseScan(Some(payload)) == SiteId(id)
    requires c in RegisterCategories && name in ItemNamesOf(c) && !JsString.IsBlank(w)
    ensures Run(Initial, [Scanned(Some(payload)), CategoryPressed(c), MaterialPressed(name), WeightTyped(w)])
      == FlowState(Form, Some(id), Some(c), Some(name), w, false, true, false)
    ensures var s := FlowState(Form, Some(id), Some(c), Some(name), w, false, true, false);
      Submit(s) == Reaction(s, Some(SubmitSuccessAlert), true)
  {
    var s1 := FlowState(Form, Some(id), None, None, "", false, true, false);
    var s4 := s1.(category := Some(c), material := Some(name), weight := w);
    OpeningScan(payload, id, CategoryPressed(c), MaterialPressed(name), WeightTyped(w));
    FormPath(s1, c, name, w);
    SubmitFilled(s4);
  }

  /** A selected material and a weight that is not blank pass the submit guard. */
  lemma SubmitFilled(s: FlowState)
    requires s.material.Some? && !JsString.IsBlank(s.weight)
    ensures Submit(s) == Reaction(s, Some(SubmitSuccessAlert), true)
  {
  }

  /** A first scan of a valid payload opens the form, and the next three events run from there. */
  lemma OpeningScan(payload: string, id: string, e1: Event, e2: Event, e3: Event)
    requires ParseScan(Some(payload)) == SiteId(id)
    ensures Run(Initial, [Scanned(Some(payload)), e1, e2, e3])
      == Run(FlowState(Form, Some(id), None, None, "", false, true, false), [e1, e2, e3])
  {
    assert [Scanned(Some(payload)), e1, e2, e3] == [Scanned(Some(payload))] + [e1, e2, e3];
    RunStep(Initial, Scanned(Some(payload)), [e1, e2, e3]);
  }

  /** In a fresh form, picking a category, one of its items and typing a weight fills the form. */
  lemma FormPath(s: FlowState, c: Category, name: string, w: string)
    requires Inv(s) && s.step == Form && s.category.None? && s.material.None?
    requires c in RegisterCategories && name in ItemNamesOf(c)
    ensures Run(s, [CategoryPressed(c), MaterialPressed(name), WeightTyped(w)])
      == s.(category := Some(c), material := Some(name), weight := w)
  {
    var s2 := s.(category := Some(c));
    var s3 := s2.(material := Some(name));
    assert [CategoryPressed(c), MaterialPressed(name), WeightTyped(w)]
      == [CategoryPressed(c)] + [MaterialPressed(name), WeightTyped(w)];
    RunStep(s, CategoryPressed(c), [MaterialPressed(name), WeightTyped(w)]);
    assert [MaterialPressed(name), WeightTyped(w)] == [MaterialPressed(name)] + [WeightTyped(w)];
    RunStep(s2, MaterialPressed(name), [WeightTyped(w)]);
    assert [WeightTyped(w)] == [WeightTyped(w)] + [];
    RunStep(s3, WeightTyped(w), []);
  }

  /** One available event, then the rest of the run. */
  lemma RunStep(s: FlowState, e: Event, rest: seq<Event>)
    requires Available(s, e)
    ensures Run(s, [e] + rest) == Run(Apply(s, e).state, rest)
  {
    assert ([e] + rest)[1..] == rest;
  }

  /** One concrete run of the happy path. */
  lemma HappyPathExample()
    ensures var s := Run(Initial, [Scanned(Some("ecoponto+::site42::v1")),
        CategoryPressed(RegisterCategories[0]), MaterialPressed("Plásticos"), WeightTyped("2,5")]);
      Submit(s).leave && s.scannedData == Some("site42") && s.material == Some("Plásticos")
  {
    ValidCodeExample();
    assert ItemNamesOf(RegisterCategories[0])[1] == "Plásticos";
    assert "2,5"[0] == '2';
    JsString.BlankIffAllWhitespace("2,5");
    HappyPath("ecoponto+::site42::v1", "site42", RegisterCategories[0], "Plásticos", "2,5");
  }
}
