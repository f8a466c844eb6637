/**
 * What the Home and Wallet screens derive from the user document and the
 * disposal history once their listeners have delivered them: the greeting's
 * first name, the balance shown, the disposal count and the listed entries.
 */
module Dashboard {
  import opened Wrappers
  import JsString

  /** The user document's fields the screens read; either may be missing. */
  datatype UserData = UserData(fullName: Option<string>, totalPoints: Option<int>)

  /** One disposal document, with the fields a history row displays. */
  datatype Disposal = Disposal(id: string, material: string, pointsAwarded: int)

  /** The greeting's name when no usable first name is available. */
  const FallbackName: string := "Usuário"

  /** `userData?.fullName?.split(' ')[0] || 'Usuário'`. */
  function FirstName(user: Option<UserData>): string {
    if user.Some? && user.value.fullName.Some? then
      var first := JsString.Split(user.value.fullName.value, " ")[0];
      if first != "" then first else FallbackName
    else FallbackName
  }

  /**
   * The first name is the longest leading run of the full name without a
   * space; the fallback is used when the document or its name is missing or
   * when that run is empty (an empty name, or one starting with a space).
   */
  lemma FirstNameSpec(user: Option<UserData>)
    ensures FirstName(user) != ""
    ensures user.None? || user.value.fullName.None? ==> FirstName(user) == FallbackName
    ensures user.Some? && user.value.fullName.Some? ==>
      var name := user.value.fullName.value;
      var r := FirstName(user);
      if name == [] || name[0] == ' ' then r == FallbackName
      else
        && |r| <= |name| && r == name[..|r|]
        && (forall i :: 0 <= i < |r| ==> r[i] != ' ')
        && (|r| == |name| || name[|r|] == ' ')
  {
    if user.Some? && user.value.fullName.Some? {
      var name := user.value.fullName.value;
      JsString.SplitHead(name, " ");
      var h := JsString.Split(name, " ")[0];
      forall i | 0 <= i < |h| ensures h[i] != ' ' {
        assert !JsString.MatchAt(name, " ", i);
        assert name[i..i + 1] == [name[i]];
      }
      if h != name {
        assert name[|h|..|h| + 1] == [name[|h|]];
      }
      if name != [] && name[0] == ' ' {
        assert JsString.MatchAt(name, " ", 0) by {
          assert name[0..1] == [name[0]];
        }
      }
    }
  }

  /** `userData?.totalPoints || 0`: the balance both screens display. */
  function Balance(user: Option<UserData>): (r: int)
    ensures user.Some? && user.value.totalPoints.Some? ==> r == user.value.totalPoints.value
    ensures user.None? || user.value.totalPoints.None? ==> r == 0
  {
    if user.Some? && user.value.totalPoints.Some? && user.value.totalPoints.value != 0 then
      user.value.totalPoints.value
    else 0
  }

  /** The Home screen's "Descartes" card: the number of entries in the whole history. */
  function DisposalCount(history: seq<Disposal>): nat {
    |history|
  }

  /** `disposalHistory.slice(0, 3)`: the Home screen's recent activity. */
  function RecentActivity(history: seq<Disposal>): (r: seq<Disposal>)
    ensures |r| == if |history| < 3 then |history| else 3
    ensures forall i :: 0 <= i < |r| ==> r[i] == history[i]
  {
    if |history| <= 3 then history else history[..3]
  }

  /** The Wallet screen lists the history as delivered, without truncation. */
  function WalletEntries(history: seq<Disposal>): seq<Disposal> {
    history
  }

  /**
   * The Home and Wallet screens over one history: the count is the number of
   * disposals, the wallet shows every one of them in order, and the recent
   * activity is a prefix of the history that is all of it exactly when there
   * are at most three entries.
   */
  lemma RecentIsHeadOfWallet(history: seq<Disposal>)
    ensures DisposalCount(history) == |history|
    ensures WalletEntries(history) == history
    ensures RecentActivity(history) <= history
    ensures RecentActivity(history) == history <==> |history| <= 3
  {
  }
}
