/**
 * The registration page's submit handler (src/pages/Register.tsx). The
 * awaited `register` call is abstract: its outcome is a parameter. Toasts,
 * the call itself, navigation and the loading flag's changes are recorded as
 * effects, in the order the handler performs them.
 */
module Register {

  /** How the awaited `register(name, email, password)` ended. */
  datatype RegisterOutcome = Succeeded | ReturnedFalse | Threw

  datatype Effect =
    | Toast(title: string)
    | SetLoading(on: bool)
    | CallRegister(name: string, email: string, password: string)
    | Navigate(path: string)

  /** The effects of one `handleSubmit`. */
  function SubmitEffects(name: string, email: string, password: string, confirmPassword: string,
                         outcome: RegisterOutcome): seq<Effect>
  {
    if password != confirmPassword then [Toast("Password Mismatch")]
    else
      var reaction := match outcome
        case Succeeded => [Toast("Registration Successful"), Navigate("/")]
        case ReturnedFalse => [Toast("Registration Failed")]
        case Threw => [Toast("Registration Error")];
      [SetLoading(true), CallRegister(name, email, password)] + reaction + [SetLoading(false)]
  }

  /** With mismatched passwords, only the mismatch toast: no call, no loading change, no navigation. */
  lemma MismatchGate(name: string, email: string, password: string, confirmPassword: string, outcome: RegisterOutcome)
    requires password != confirmPassword
    ensures var e := SubmitEffects(name, email, password, confirmPassword, outcome);
      e == [Toast("Password Mismatch")]
      && forall i :: 0 <= i < |e| ==> !e[i].CallRegister? && !e[i].SetLoading? && !e[i].Navigate?
  {
  }

  /** With matching passwords, loading is switched on before the call and off as the very last effect. */
  lemma LoadingBracketsCall(name: string, email: string, password: string, outcome: RegisterOutcome)
    ensures var e := SubmitEffects(name, email, password, password, outcome);
      && |e| >= 4 && e[0] == SetLoading(true) && e[1] == CallRegister(name, email, password)
      && e[|e| - 1] == SetLoading(false)
      && forall i :: 1 < i < |e| - 1 ==> !e[i].SetLoading? && !e[i].CallRegister?
  {
  }

  /** The page navigates home exactly when the passwords match and `register` resolves to true. */
  lemma NavigatesIffRegistered(name: string, email: string, password: string, confirmPassword: string,
                               outcome: RegisterOutcome)
    ensures Navigate("/") in SubmitEffects(name, email, password, confirmPassword, outcome)
      <==> password == confirmPassword && outcome == Succeeded
  {
    var e := SubmitEffects(name, email, password, confirmPassword, outcome);
    if password == confirmPassword && outcome != Succeeded {
      assert forall i :: 0 <= i < |e| ==> !e[i].Navigate?;
    }
  }

  class RegisterPage {
    var isLoading: bool
    var effects: seq<Effect>

    constructor ()
      ensures !isLoading && effects == []
    {
      isLoading := false;
      effects := [];
    }

    /** `handleSubmit`: the loading flag ends false on every matched path and is untouched on a mismatch. */
    method HandleSubmit(name: string, email: string, password: string, confirmPassword: string,
                        outcome: RegisterOutcome)
      modifies this
      ensures isLoading == if password == confirmPassword then false else old(isLoading)
      ensures effects == old(effects) + SubmitEffects(name, email, password, confirmPassword, outcome)
    {
      if password != confirmPassword {
        effects := effects + [Toast("Password Mismatch")];
        return;
      }
      isLoading := true;
      effects := effects + [SetLoading(true), CallRegister(name, email, password)];
      match outcome {
        case Succeeded =>
          effects := effects + [Toast("Registration Successful"), Navigate("/")];
        case ReturnedFalse =>
          effects := effects + [Toast("Registration Failed")];
        case Threw =>
          effects := effects + [Toast("Registration Error")];
      }
      isLoading := false;
      effects := effects + [SetLoading(false)];
    }
  }
}
