/** The withdrawal forms of src/FooterActionButtons/PaymentModal.tsx and
    src/FooterButton/Components/Payment/WithdrawComponent.tsx. Both list the
    same methods, sanitise mobile numbers the same way and show the submit
    button under the same condition; they differ in what a submission does. */
module PaymentForms {
  import Text

  /** A row of the methods table; minimum, fee and processing time are only
      displayed and are not modelled. */
  datatype MethodInfo = MethodInfo(id: string, name: string, available: bool)

  const Methods: seq<MethodInfo> := [
    MethodInfo("ton", "TON Wallet", true),
    MethodInfo("usdt", "USDT (TRC20)", true),
    MethodInfo("paypal", "PayPal", false),
    MethodInfo("bkash", "bKash", true),
    MethodInfo("nagad", "Nagad", true),
    MethodInfo("rocket", "Rocket", true)
  ]

  /** `['bkash','nagad','rocket'].includes(id)`. */
  predicate IsMobile(id: string) { id == "bkash" || id == "nagad" || id == "rocket" }

  /** The click handler of the `i`-th method button:
      `method.available && setSelectedMethod(method.id)`. */
  function Select(current: string, i: nat): (r: string)
    requires i < |Methods|
    ensures Methods[i].available ==> r == Methods[i].id
    ensures !Methods[i].available ==> r == current
  {
    if Methods[i].available then Methods[i].id else current
  }

  /** Nothing, or the id of a method that can be chosen. */
  predicate Selectable(id: string) {
    id == "" || exists i :: 0 <= i < |Methods| && Methods[i].available && Methods[i].id == id
  }

  /** Clicking any button keeps the selection selectable, and PayPal, the one
      unavailable method, is never selectable. */
  lemma SelectKeepsSelectable(current: string, i: nat)
    requires i < |Methods| && Selectable(current)
    ensures Selectable(Select(current, i))
    ensures Select(current, i) != "paypal"
  {
    PaypalNotSelectable(current);
    if Methods[i].available {
      assert Methods[i].id != "paypal";
    }
  }

  lemma PaypalNotSelectable(id: string)
    requires Selectable(id)
    ensures id != "paypal"
  {
    if id != "" {
      var i :| 0 <= i < |Methods| && Methods[i].available && Methods[i].id == id;
      assert i != 2;
    }
  }

  /** `value.replace(/\D/g, '').slice(0, 10)`. */
  function SanitiseMobile(input: string): (r: string)
    ensures Text.AllDigits(r) && |r| <= 10 && |r| <= |Text.DigitsOnly(input)|
    ensures r == Text.DigitsOnly(input)[..|r|]
    ensures |Text.DigitsOnly(input)| <= 10 ==> r == Text.DigitsOnly(input)
    ensures |r| == if |Text.DigitsOnly(input)| <= 10 then |Text.DigitsOnly(input)| else 10
  {
    Text.Take(Text.DigitsOnly(input), 10)
  }

  /** Sanitising a sanitised number changes nothing. */
  lemma SanitiseIdempotent(input: string)
    ensures SanitiseMobile(SanitiseMobile(input)) == SanitiseMobile(input)
  {
  }

  /** What the address box stores after typing `text`. */
  function AddressInput(selected: string, text: string): (r: string)
    ensures IsMobile(selected) ==> r == SanitiseMobile(text)
    ensures !IsMobile(selected) ==> r == text
  {
    if IsMobile(selected) then SanitiseMobile(text) else text
  }

  /** The guard at the top of `handleWithdraw`: all three fields non-empty. */
  predicate GuardPasses(selected: string, amount: string, address: string) {
    selected != "" && amount != "" && address != ""
  }

  /** When the submit button is rendered. */
  predicate SubmitVisible(selected: string, amount: string, address: string) {
    selected != "" && amount != ""
    && ((IsMobile(selected) && |address| == 10) || (!IsMobile(selected) && address != ""))
  }

  /** A visible button always passes the guard; for wallet methods the two
      agree, while a mobile number shorter than 10 digits passes the guard but
      never shows the button. */
  lemma SubmitImpliesGuard(selected: string, amount: string, address: string)
    ensures SubmitVisible(selected, amount, address) ==> GuardPasses(selected, amount, address)
    ensures !IsMobile(selected) ==>
              (SubmitVisible(selected, amount, address) <==> GuardPasses(selected, amount, address))
    ensures IsMobile(selected) ==>
              (SubmitVisible(selected, amount, address) <==> GuardPasses(selected, amount, address) && |address| == 10)
  {
  }

  /** MAX: `balance.toString()`; the amount it sets is never empty. */
  function MaxAmount(balance: int): (r: string)
    ensures r != ""
    ensures balance >= 0 ==> Text.AllDigits(r) && Text.ParseDigits(r) == balance
  {
    if balance >= 0 then Text.ParseNatToString(balance); Text.NatToString(balance)
    else Text.IntToString(balance)
  }

  /** src/FooterActionButtons/PaymentModal.tsx: the submission is simulated;
      after a delay the form is cleared. */
  class PaymentForm {
    var selectedMethod: string
    var amount: string
    var walletAddress: string
    var isProcessing: bool

    ghost predicate Valid()
      reads this
    {
      Selectable(selectedMethod)
    }

    constructor ()
      ensures Valid()
      ensures selectedMethod == "" && amount == "" && walletAddress == "" && !isProcessing
    {
      selectedMethod, amount, walletAddress, isProcessing := "", "", "", false;
    }

    method ChooseMethod(i: nat)
      requires Valid() && i < |Methods|
      modifies this
      ensures Valid() && selectedMethod != "paypal"
      ensures selectedMethod == Select(old(selectedMethod), i)
      ensures amount == old(amount) && walletAddress == old(walletAddress) && isProcessing == old(isProcessing)
    {
      SelectKeepsSelectable(selectedMethod, i);
      selectedMethod := Select(selectedMethod, i);
    }

    method TypeAmount(text: string)
      modifies this
      ensures amount == text
      ensures selectedMethod == old(selectedMethod) && walletAddress == old(walletAddress)
      ensures isProcessing == old(isProcessing)
    {
      amount := text;
    }

    method PressMax(balance: int)
      modifies this
      ensures amount == MaxAmount(balance)
      ensures selectedMethod == old(selectedMethod) && walletAddress == old(walletAddress)
      ensures isProcessing == old(isProcessing)
    {
      amount := MaxAmount(balance);
    }

    method TypeAddress(text: string)
      modifies this
      ensures walletAddress == AddressInput(selectedMethod, text)
      ensures selectedMethod == old(selectedMethod) && amount == old(amount)
      ensures isProcessing == old(isProcessing)
    {
      walletAddress := AddressInput(selectedMethod, text);
    }

    /** `handleWithdraw` up to the timer: nothing happens unless the guard
        passes, and then only `isProcessing` is set. */
    method HandleWithdraw()
      modifies this
      ensures isProcessing == (old(isProcessing) || GuardPasses(selectedMethod, amount, walletAddress))
      ensures selectedMethod == old(selectedMethod) && amount == old(amount)
      ensures walletAddress == old(walletAddress)
    {
      if !GuardPasses(selectedMethod, amount, walletAddress) {
        return;
      }
      isProcessing := true;
    }

    /** The timer callback: everything is cleared. */
    method FinishProcessing()
      requires Valid()
      modifies this
      ensures Valid()
      ensures !isProcessing && amount == "" && walletAddress == "" && selectedMethod == ""
    {
      isProcessing := false;
      amount := "";
      walletAddress := "";
      selectedMethod := "";
    }
  }

  /** A call of the `onWithdraw` callback. */
  datatype WithdrawRequest = WithdrawRequest(selected: string, amount: string, address: string)

  /** src/FooterButton/Components/Payment/WithdrawComponent.tsx: a submission
      is handed to the parent through `onWithdraw`, recorded in `requests`. */
  class WithdrawForm {
    var selectedMethod: string
    var amount: string
    var walletAddress: string
    var requests: seq<WithdrawRequest>

    ghost predicate Valid()
      reads this
    {
      Selectable(selectedMethod)
    }

    constructor ()
      ensures Valid()
      ensures selectedMethod == "" && amount == "" && walletAddress == "" && requests == []
    {
      selectedMethod, amount, walletAddress, requests := "", "", "", [];
    }

    method ChooseMethod(i: nat)
      requires Valid() && i < |Methods|
      modifies this
      ensures Valid() && selectedMethod != "paypal"
      ensures selectedMethod == Select(old(selectedMethod), i)
      ensures amount == old(amount) && walletAddress == old(walletAddress) && requests == old(requests)
    {
      SelectKeepsSelectable(selectedMethod, i);
      selectedMethod := Select(selectedMethod, i);
    }

    method TypeAmount(text: string)
      modifies this
      ensures amount == text
      ensures selectedMethod == old(selectedMethod) && walletAddress == old(walletAddress)
      ensures requests == old(requests)
    {
      amount := text;
    }

    method PressMax(balance: int)
      modifies this
      ensures amount == MaxAmount(balance)
      ensures selectedMethod == old(selectedMethod) && walletAddress == old(walletAddress)
      ensures requests == old(requests)
    {
      amount := MaxAmount(balance);
    }

    method TypeAddress(text: string)
      modifies this
      ensures walletAddress == AddressInput(selectedMethod, text)
      ensures selectedMethod == old(selectedMethod) && amount == old(amount)
      ensures requests == old(requests)
    {
      walletAddress := AddressInput(selectedMethod, text);
    }

    /** `handleWithdraw`: `onWithdraw` is called exactly when the guard passes,
        with the three fields as they are; the form itself is left as it is. */
    method HandleWithdraw()
      modifies this
      ensures GuardPasses(selectedMethod, amount, walletAddress) ==>
                requests == old(requests) + [WithdrawRequest(selectedMethod, amount, walletAddress)]
      ensures !GuardPasses(selectedMethod, amount, walletAddress) ==> requests == old(requests)
      ensures selectedMethod == old(selectedMethod) && amount == old(amount)
      ensures walletAddress == old(walletAddress)
    {
      if !GuardPasses(selectedMethod, amount, walletAddress) {
        return;
      }
      requests := requests + [WithdrawRequest(selectedMethod, amount, walletAddress)];
    }

    /** `resetForm`: clears the three fields and nothing else. */
    method ResetForm()
      requires Valid()
      modifies this
      ensures Valid()
      ensures amount == "" && walletAddress == "" && selectedMethod == ""
      ensures requests == old(requests)
    {
      amount := "";
      walletAddress := "";
      selectedMethod := "";
    }
  }
}
