/**
 * The registration dialog (public/js/register-modal.js): its own
 * four-criterion strength meter, the submit check, and the module-level flag
 * that makes the dialog be built once.
 */
module RegisterModal {
  import opened Common
  import Login

  /** The four tests of the meter, in the order the script makes them. */
  function Criteria(password: string): (cs: seq<bool>)
    ensures |cs| == 4
  {
    [|password| >= 8, Login.HasUpper(password), Login.HasDigit(password), Login.HasSpecial(password)]
  }

  function CountTrue(bs: seq<bool>): (n: nat)
    ensures n <= |bs|
    decreases |bs|
  {
    if bs == [] then 0 else (if bs[0] then 1 else 0) + CountTrue(bs[1..])
  }

  /** The meter value: 25 points per passed test. */
  function MeterStrength(password: string): (strength: int)
    ensures strength in {0, 25, 50, 75, 100}
  {
    (if |password| >= 8 then 25 else 0) +
    (if Login.HasUpper(password) then 25 else 0) +
    (if Login.HasDigit(password) then 25 else 0) +
    (if Login.HasSpecial(password) then 25 else 0)
  }

  /** The meter is 25 times the number of tests passed. */
  lemma MeterCountsCriteria(password: string)
    ensures MeterStrength(password) == 25 * CountTrue(Criteria(password))
  {
    var cs := Criteria(password);
    assert CountTrue(cs[3..]) == (if cs[3] then 1 else 0) by {
      assert cs[3..][1..] == [];
    }
    assert cs[2..][1..] == cs[3..] && cs[1..][1..] == cs[2..];
    assert CountTrue(cs[1..]) == (if cs[1] then 1 else 0) + (if cs[2] then 1 else 0) + CountTrue(cs[3..]);
  }

  /** The word shown for a meter value. */
  function Status(strength: int): (s: string)
    ensures strength <= 25 ==> s == "Svagt"
    ensures 25 < strength <= 50 ==> s == "Medel"
    ensures 50 < strength <= 75 ==> s == "Bra"
    ensures strength > 75 ==> s == "Starkt"
  {
    if strength <= 25 then "Svagt" else if strength <= 50 then "Medel" else if strength <= 75 then "Bra" else "Starkt"
  }

  /** The caption in front of the meter's word. */
  const Caption: string := "Lösenordsstyrka: "

  /** The text under the meter; an empty password shows "Inget lösenord" whatever the status. */
  function MeterText(password: string): string {
    Caption + (if |password| > 0 then Status(MeterStrength(password)) else "Inget lösenord")
  }

  /**
   * The text is the caption followed by the status word, or by "Inget
   * lösenord" for an empty password; two non-empty passwords show the same
   * text exactly when they get the same status, and an empty one never
   * shows what a non-empty one does.
   */
  lemma MeterTextShowsStatus(p: string, q: string)
    ensures MeterText("") == Caption + "Inget lösenord"
    ensures p != "" ==> MeterText(p) == Caption + Status(MeterStrength(p))
    ensures p != "" && q != "" ==>
      (MeterText(p) == MeterText(q) <==> Status(MeterStrength(p)) == Status(MeterStrength(q)))
    ensures p != "" ==> MeterText(p) != MeterText("")
  {
    if p != "" {
      var a := Status(MeterStrength(p));
      assert |a| < |"Inget lösenord"|;
      assert (Caption + a)[|Caption|..] == a;
      assert (Caption + "Inget lösenord")[|Caption|..] == "Inget lösenord";
      if q != "" {
        var b := Status(MeterStrength(q));
        assert (Caption + b)[|Caption|..] == b;
      }
    }
  }

  /** Passing all four tests shows "Starkt"; passing at most one shows "Svagt". */
  lemma MeterExtremes(password: string)
    ensures CountTrue(Criteria(password)) == 4 ==> Status(MeterStrength(password)) == "Starkt"
    ensures CountTrue(Criteria(password)) <= 1 ==> Status(MeterStrength(password)) == "Svagt"
  {
    MeterCountsCriteria(password);
  }

  /** The dialog's form; its values are not trimmed. */
  datatype ModalForm = ModalForm(firstName: string, lastName: string, username: string, email: string, password: string, termsAgreed: bool)

  datatype ModalError = MissingFields | TermsNotAccepted

  /** The submit handler's checks: every field filled, then the terms accepted. */
  function SubmitCheck(f: ModalForm): (r: Option<ModalError>)
    ensures r.None? <==> f.firstName != "" && f.lastName != "" && f.username != "" && f.email != "" && f.password != "" && f.termsAgreed
    ensures r == Some(TermsNotAccepted) ==> f.firstName != "" && f.lastName != "" && f.username != "" && f.email != "" && f.password != ""
    ensures (f.firstName == "" || f.lastName == "" || f.username == "" || f.email == "" || f.password == "") ==> r == Some(MissingFields)
  {
    if f.firstName == "" || f.lastName == "" || f.username == "" || f.email == "" || f.password == "" then Some(MissingFields)
    else if !f.termsAgreed then Some(TermsNotAccepted)
    else None
  }

  /** The module-level state: the creation flag, the number of dialogs built, and whether it is open. */
  class ModalState {
    var registerModalCreated: bool
    var built: nat
    var open: bool

    ghost predicate Valid()
      reads this
    {
      built == (if registerModalCreated then 1 else 0) && (open ==> registerModalCreated)
    }

    constructor ()
      ensures Valid() && !registerModalCreated && built == 0 && !open
    {
      registerModalCreated := false;
      built := 0;
      open := false;
    }

    /** `createRegisterModal()`: does nothing once the flag is set. */
    method CreateRegisterModal()
      requires Valid()
      modifies this`registerModalCreated, this`built
      ensures Valid() && registerModalCreated && built == 1
      ensures old(registerModalCreated) ==> built == old(built)
    {
      if registerModalCreated {
        return;
      }
      built := built + 1;
      registerModalCreated := true;
    }

    /** `openRegisterModal()` */
    method OpenRegisterModal()
      requires Valid()
      modifies this
      ensures Valid() && open && built == 1
    {
      if !registerModalCreated {
        CreateRegisterModal();
      }
      open := true;
    }

    /** `closeRegisterModal()` */
    method CloseRegisterModal()
      requires Valid()
      modifies this`open
      ensures Valid() && !open
    {
      if registerModalCreated {
        open := false;
      }
    }
  }
}
