/**
 * The helper registration form: the submit-button rule, the ordered checks and
 * payload of the submit handler, and the effect that clears payment fields that
 * do not belong to the chosen region and wallet type.
 */
module HelperRegistration {
  import opened Wrappers
  import Domain
  import Browser

  datatype Region = NoRegion | Local | Foreign
  {
    function Name(): string
    {
      match this
      case NoRegion => ""
      case Local => "local"
      case Foreign => "foreign"
    }
  }

  datatype WalletType = NoWallet | PayPal | CashApp | Crypto

  /** The inputs of the form. */
  datatype RegistrationFields = RegistrationFields(
    username: string,
    password: string,
    confirmPassword: string,
    specializedCategories: seq<string>,
    region: Region,
    accountNumber: string,
    accountName: string,
    foreignWalletType: WalletType,
    paypalEmail: string,
    cashAppTag: string,
    cryptoWalletAddress: string,
    cryptoNetwork: string)

  /** The request body: the four fields always sent and the payment details of the chosen method. */
  datatype Payload = Payload(
    username: string,
    password: string,
    specializedCategories: seq<string>,
    region: string,
    details: map<string, string>)

  const PasswordMismatch: string := "Passwords do not match."
  const RegionMissing: string := "Please select your region."
  const BankMissing: string := "Account Number and Account Name are required for local region."
  const WalletMissing: string := "Please select a foreign wallet type."
  const PaypalMissing: string := "PayPal Email is required."
  const CashAppMissing: string := "CashApp Tag is required."
  const CryptoMissing: string := "Crypto Wallet Address and Network are required."

  /** The payment details the chosen region and wallet type need, all of them filled in. */
  predicate PaymentComplete(f: RegistrationFields)
  {
    match f.region
    case NoRegion => false
    case Local => f.accountNumber != "" && f.accountName != ""
    case Foreign =>
      match f.foreignWalletType
      case NoWallet => false
      case PayPal => f.paypalEmail != ""
      case CashApp => f.cashAppTag != ""
      case Crypto => f.cryptoWalletAddress != "" && f.cryptoNetwork != ""
  }

  /** The payment fields sent for the chosen region and wallet type. */
  function Details(f: RegistrationFields): map<string, string>
  {
    match f.region
    case Local => map["accountNumber" := f.accountNumber, "accountName" := f.accountName]
    case Foreign =>
      (match f.foreignWalletType
       case PayPal => map["paypalEmail" := f.paypalEmail]
       case CashApp => map["cashAppTag" := f.cashAppTag]
       case Crypto => map["cryptoWalletAddress" := f.cryptoWalletAddress, "cryptoNetwork" := f.cryptoNetwork]
       case NoWallet => map[])
    case NoRegion => map[]
  }

  /** The client-side part of `handleSubmit`: the first failing check, or the payload it posts. */
  function ValidateSubmission(f: RegistrationFields): (r: Result<Payload>)
    ensures r.Success? <==> f.password == f.confirmPassword && PaymentComplete(f)
    ensures r.Success? ==> r.value == Payload(f.username, f.password, f.specializedCategories,
      f.region.Name(), Details(f))
  {
    if f.password != f.confirmPassword then Failure(PasswordMismatch)
    else if f.region == NoRegion then Failure(RegionMissing)
    else
      var base := Payload(f.username, f.password, f.specializedCategories, f.region.Name(), map[]);
      if f.region == Local then
        if f.accountNumber == "" || f.accountName == "" then Failure(BankMissing)
        else Success(base.(details := map["accountNumber" := f.accountNumber, "accountName" := f.accountName]))
      else if f.foreignWalletType == NoWallet then Failure(WalletMissing)
      else if f.foreignWalletType == PayPal then
        if f.paypalEmail == "" then Failure(PaypalMissing)
        else Success(base.(details := map["paypalEmail" := f.paypalEmail]))
      else if f.foreignWalletType == CashApp then
        if f.cashAppTag == "" then Failure(CashAppMissing)
        else Success(base.(details := map["cashAppTag" := f.cashAppTag]))
      else
        if f.cryptoWalletAddress == "" || f.cryptoNetwork == "" then Failure(CryptoMissing)
        else Success(base.(details := map["cryptoWalletAddress" := f.cryptoWalletAddress,
                                          "cryptoNetwork" := f.cryptoNetwork]))
  }

  /** The checks run in a fixed order; the first that fails names the error. */
  lemma ValidationOrder(f: RegistrationFields)
    ensures f.password != f.confirmPassword ==> ValidateSubmission(f) == Failure(PasswordMismatch)
    ensures (f.password == f.confirmPassword && f.region == NoRegion) ==>
      ValidateSubmission(f) == Failure(RegionMissing)
    ensures (f.password == f.confirmPassword && f.region == Local && !PaymentComplete(f)) ==>
      ValidateSubmission(f) == Failure(BankMissing)
    ensures (f.password == f.confirmPassword && f.region == Foreign && f.foreignWalletType == NoWallet) ==>
      ValidateSubmission(f) == Failure(WalletMissing)
    ensures (f.password == f.confirmPassword && f.region == Foreign && f.foreignWalletType == PayPal &&
             !PaymentComplete(f)) ==>
      ValidateSubmission(f) == Failure(PaypalMissing)
    ensures (f.password == f.confirmPassword && f.region == Foreign && f.foreignWalletType == CashApp &&
             !PaymentComplete(f)) ==>
      ValidateSubmission(f) == Failure(CashAppMissing)
    ensures (f.password == f.confirmPassword && f.region == Foreign && f.foreignWalletType == Crypto &&
             !PaymentComplete(f)) ==>
      ValidateSubmission(f) == Failure(CryptoMissing)
  {
  }

  /** A local payload carries only the bank fields; a foreign one only the chosen wallet's. */
  lemma PayloadDetails(f: RegistrationFields)
    requires ValidateSubmission(f).Success?
    ensures var d := ValidateSubmission(f).value.details;
      (f.region == Local ==> d.Keys == {"accountNumber", "accountName"}) &&
      (f.region == Foreign && f.foreignWalletType == PayPal ==> d.Keys == {"paypalEmail"}) &&
      (f.region == Foreign && f.foreignWalletType == CashApp ==> d.Keys == {"cashAppTag"}) &&
      (f.region == Foreign && f.foreignWalletType == Crypto ==> d.Keys == {"cryptoWalletAddress", "cryptoNetwork"}) &&
      (forall k :: k in d ==> d[k] != "")
  {
  }

  /** `isFormInvalid`: the rule that disables the submit button. */
  function IsFormInvalid(f: RegistrationFields, loadingCategories: bool): bool
  {
    if loadingCategories || |f.specializedCategories| < 3 || f.region == NoRegion ||
       f.password != f.confirmPassword then true
    else if f.region == Local && (f.accountNumber == "" || f.accountName == "") then true
    else if f.region == Foreign then
      if f.foreignWalletType == NoWallet then true
      else if f.foreignWalletType == PayPal && f.paypalEmail == "" then true
      else if f.foreignWalletType == CashApp && f.cashAppTag == "" then true
      else if f.foreignWalletType == Crypto && (f.cryptoWalletAddress == "" || f.cryptoNetwork == "") then true
      else false
    else false
  }

  /**
   * The button rule agrees with the submit checks: the button is enabled exactly
   * when categories have loaded, at least three are chosen and every check passes.
   */
  lemma FormInvalidIff(f: RegistrationFields, loadingCategories: bool)
    ensures IsFormInvalid(f, loadingCategories) <==>
      loadingCategories || |f.specializedCategories| < 3 || ValidateSubmission(f).Failure?
  {
  }

  /** So an enabled button never leads to a client-side error. */
  lemma EnabledSubmitPasses(f: RegistrationFields, loadingCategories: bool)
    requires !IsFormInvalid(f, loadingCategories)
    ensures ValidateSubmission(f).Success?
  {
    FormInvalidIff(f, loadingCategories);
  }

  /** The effect on `[region, foreignWalletType]`: clear what the choice does not use. */
  function ResetPaymentFields(f: RegistrationFields): (r: RegistrationFields)
    ensures r.username == f.username && r.password == f.password && r.confirmPassword == f.confirmPassword
    ensures r.specializedCategories == f.specializedCategories && r.region == f.region
    ensures r.region == Local ==>
      r.foreignWalletType == NoWallet && r.paypalEmail == "" && r.cashAppTag == "" &&
      r.cryptoWalletAddress == "" && r.cryptoNetwork == "" &&
      r.accountNumber == f.accountNumber && r.accountName == f.accountName
    ensures r.region == Foreign ==>
      r.accountNumber == "" && r.accountName == "" && r.foreignWalletType == f.foreignWalletType &&
      (r.paypalEmail != "" ==> r.foreignWalletType == PayPal) &&
      (r.cashAppTag != "" ==> r.foreignWalletType == CashApp) &&
      (r.cryptoWalletAddress != "" || r.cryptoNetwork != "" ==> r.foreignWalletType == Crypto)
    ensures r.region == NoRegion ==>
      r.accountNumber == "" && r.accountName == "" && r.foreignWalletType == NoWallet &&
      r.paypalEmail == "" && r.cashAppTag == "" && r.cryptoWalletAddress == "" && r.cryptoNetwork == ""
  {
    match f.region
    case Local =>
      f.(foreignWalletType := NoWallet, paypalEmail := "", cashAppTag := "",
         cryptoWalletAddress := "", cryptoNetwork := "")
    case Foreign =>
      var g := f.(accountNumber := "", accountName := "");
      (match f.foreignWalletType
       case NoWallet => g.(paypalEmail := "", cashAppTag := "", cryptoWalletAddress := "", cryptoNetwork := "")
       case PayPal => g.(cashAppTag := "", cryptoWalletAddress := "", cryptoNetwork := "")
       case CashApp => g.(paypalEmail := "", cryptoWalletAddress := "", cryptoNetwork := "")
       case Crypto => g.(paypalEmail := "", cashAppTag := ""))
    case NoRegion =>
      f.(accountNumber := "", accountName := "", foreignWalletType := NoWallet,
         paypalEmail := "", cashAppTag := "", cryptoWalletAddress := "", cryptoNetwork := "")
  }

  /** Running the effect again changes nothing. */
  lemma ResetIdempotent(f: RegistrationFields)
    ensures ResetPaymentFields(ResetPaymentFields(f)) == ResetPaymentFields(f)
  {
  }

  /** The effect only clears fields the submit handler ignores: the outcome of submitting is the same. */
  lemma ResetKeepsSubmission(f: RegistrationFields)
    ensures ValidateSubmission(ResetPaymentFields(f)) == ValidateSubmission(f)
  {
  }

  /** The reply to `POST /auth/local/register-helper`: an HTTP answer, or a request that never got one. */
  datatype RegisterReply =
    | Responded(status: int, message: Option<string>, token: string, user: Domain.UserData)
    | RequestFailed(message: Option<string>)

  const HelperDashboardPath: string := "/helper-dashboard"

  /** The component state of `HelperRegistrationPage`. */
  class HelperRegistrationPage {
    var fields: RegistrationFields
    var availableCategories: seq<string>
    var loadingCategories: bool
    var isSubmitting: bool
    var message: Option<string>
    var error: Option<string>

    constructor ()
      ensures fields == ResetPaymentFields(RegistrationFields("", "", "", [], NoRegion, "", "", NoWallet, "", "", "", ""))
      ensures availableCategories == [] && loadingCategories && !isSubmitting && message.None? && error.None?
    {
      // The reset effect also runs once on mount; on the empty form it changes nothing.
      fields := RegistrationFields("", "", "", [], NoRegion, "", "", NoWallet, "", "", "", "");
      availableCategories, loadingCategories, isSubmitting, message, error := [], true, false, None, None;
    }

    /** The user picks a region; the reset effect follows when it changed. */
    method ChangeRegion(region: Region)
      modifies this`fields
      ensures region != old(fields.region) ==> fields == ResetPaymentFields(old(fields).(region := region))
      ensures region == old(fields.region) ==> fields == old(fields)
      ensures error == old(error) && message == old(message)
    {
      if region != fields.region {
        fields := ResetPaymentFields(fields.(region := region));
      }
    }

    /** The user picks a wallet type; the reset effect follows when it changed. */
    method ChangeWalletType(w: WalletType)
      modifies this`fields
      ensures w != old(fields.foreignWalletType) ==>
        fields == ResetPaymentFields(old(fields).(foreignWalletType := w))
      ensures w == old(fields.foreignWalletType) ==> fields == old(fields)
      ensures error == old(error) && message == old(message)
    {
      if w != fields.foreignWalletType {
        fields := ResetPaymentFields(fields.(foreignWalletType := w));
      }
    }

    /** `handleCategoryChange`: the selected options replace the choice. */
    method ChangeCategories(selected: seq<string>)
      modifies this`fields
      ensures fields == old(fields).(specializedCategories := selected)
      ensures error == old(error) && message == old(message)
    {
      fields := fields.(specializedCategories := selected);
    }

    /**
     * `handleSubmit`: run the checks; if they pass, post the payload and act on
     * the reply. `serialize` stands for `JSON.stringify`.
     */
    method HandleSubmit(reply: RegisterReply, storage: Browser.LocalStorage,
                        serialize: Domain.UserData -> string)
      returns (sent: Option<Payload>, navigation: Option<string>)
      modifies this`isSubmitting, this`message, this`error, storage
      ensures fields == old(fields) && !isSubmitting
      ensures ValidateSubmission(old(fields)).Failure? ==>
        sent.None? && navigation.None? && message.None? &&
        error == Some(ValidateSubmission(old(fields)).error) && storage.items == old(storage.items)
      ensures ValidateSubmission(old(fields)).Success? ==> sent == Some(ValidateSubmission(old(fields)).value)
      ensures sent.Some? && reply.Responded? && reply.status == 201 ==>
        message == reply.message && error.None? && navigation == Some(HelperDashboardPath) &&
        storage.items == old(storage.items)[Browser.TokenKey := reply.token][Browser.UserDataKey := serialize(reply.user)]
      ensures sent.Some? && reply.Responded? && Domain.Resolves(reply.status) && reply.status != 201 ==>
        error == Some(MessageOr(reply.message, "Registration failed.")) && message.None? &&
        navigation.None? && storage.items == old(storage.items)
      ensures sent.Some? && (reply.RequestFailed? || !Domain.Resolves(reply.status)) ==>
        error == Some(MessageOr(reply.message, "An error occurred during registration.")) && message.None? &&
        navigation.None? && storage.items == old(storage.items)
    {
      isSubmitting, message, error := true, None, None;
      navigation := None;
      var check := ValidateSubmission(fields);
      if check.Failure? {
        error, isSubmitting := Some(check.error), false;
        return None, None;
      }
      sent := Some(check.value);
      match reply {
      case Responded(status, msg, token, user) =>
        if !Domain.Resolves(status) {
          error := Some(MessageOr(msg, "An error occurred during registration."));
        } else if status == 201 {
          message := msg;
          storage.SetItem(Browser.TokenKey, token);
          storage.SetItem(Browser.UserDataKey, serialize(user));
          navigation := Some(HelperDashboardPath);
        } else {
          error := Some(MessageOr(msg, "Registration failed."));
        }
      case RequestFailed(msg) =>
        error := Some(MessageOr(msg, "An error occurred during registration."));
      }
      isSubmitting := false;
    }

    /** The mount-time category fetch. */
    method LoadCategories(reply: Result<seq<string>>)
      modifies this`availableCategories, this`loadingCategories, this`error
      ensures !loadingCategories && fields == old(fields)
      ensures reply.Success? ==> availableCategories == reply.value && error == old(error)
      ensures reply.Failure? ==>
        availableCategories == old(availableCategories) &&
        error == Some(if reply.error != "" then reply.error else "Failed to load categories.")
    {
      match reply {
      case Success(names) => availableCategories := names;
      case Failure(msg) => error := Some(if msg != "" then msg else "Failed to load categories.");
      }
      loadingCategories := false;
    }

    /** The submit button is disabled while submitting or while the form is invalid. */
    function SubmitDisabled(): (r: bool)
      reads this
      ensures !r ==>
        !isSubmitting && !loadingCategories && |fields.specializedCategories| >= 3 &&
        ValidateSubmission(fields).Success?
    {
      FormInvalidIff(fields, loadingCategories);
      isSubmitting || IsFormInvalid(fields, loadingCategories)
    }
  }
}
