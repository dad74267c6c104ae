/**
 * The settings dialog, SettingsModal.jsx: the reset on opening, the privacy
 * switch, the language change confirmed by a one-time code (by e-mail for French,
 * by SMS otherwise), and the points transfer form.
 */
module Settings {
  import opened Optional
  import opened Entities

  datatype OtpType = Mobile | Email

  /** What `confirmationResult` holds: the phone-auth confirmation, or the demo stand-in. */
  datatype Confirmer = PhoneConfirmation | DemoConfirmer

  /** How the SMS sign-in ends: sent, refused because billing is off (demo mode), or another error. */
  datatype PhoneAuth = CodeSent | BillingNotEnabled | AuthError(message: string)

  /** `user?.isPublic ?? true`: only a missing value falls back. */
  function InitialPublic(user: Option<User>): (b: bool)
    ensures user.Some? && user.value.isPublic.Some? ==> b == user.value.isPublic.value
    ensures user.None? || user.value.isPublic.None? ==> b
  {
    if user.Some? && user.value.isPublic.Some? then user.value.isPublic.value else true
  }

  /** `user?.preferredLanguage || 'en'`: a missing or empty language falls back. */
  function InitialLang(user: Option<User>): (l: string)
    ensures l != ""
    ensures user.Some? && Truthy(user.value.preferredLanguage) ==> l == user.value.preferredLanguage.value
    ensures !(user.Some? && Truthy(user.value.preferredLanguage)) ==> l == "en"
  {
    if user.Some? && Truthy(user.value.preferredLanguage) then user.value.preferredLanguage.value else "en"
  }

  /** Line 92: a number with a `+` anywhere is used as it is, any other gets the `+91` prefix. */
  function NormalisePhone(phone: string): (p: string)
    ensures '+' in p
    ensures '+' in phone ==> p == phone
    ensures '+' !in phone ==> p == "+91" + phone
  {
    if '+' in phone then phone else "+91" + phone
  }

  lemma NormalisePhoneIdempotent(phone: string)
    ensures NormalisePhone(NormalisePhone(phone)) == NormalisePhone(phone)
  {
  }

  /** `confirmationResult.confirm(otp)` succeeds: the phone confirmation by its own verdict, the demo one for `123456` alone. */
  predicate Confirms(c: Confirmer, code: string, phoneAccepts: bool) {
    match c
    case PhoneConfirmation => phoneAccepts
    case DemoConfirmer => code == "123456"
  }

  /**
   * Whether handing `after` to updateUser gives the session a different `user`
   * (React compares with `Object.is`), so that the reset effect, whose dependencies
   * are `[isOpen, user]`, runs again. A user object from a reply or a spread is
   * always a new object; replacing a user by nobody changes the value too.
   */
  predicate UserChanges(before: Option<User>, after: UserValue) {
    before.Some? || after.Defined?
  }

  class SettingsModal {
    var activeTab: string
    var isPublic: bool
    var lang: string
    var pendingLang: string
    var otp: string
    var showLangOtp: bool
    var otpType: OtpType
    var confirmation: Option<Confirmer>
    var verifying: bool
    var transferAmount: string
    var recipientEmail: string

    constructor (user: Option<User>)
      ensures activeTab == "main" && isPublic == InitialPublic(user) && lang == InitialLang(user)
      ensures pendingLang == "" && otp == "" && !showLangOtp && otpType == Mobile
      ensures confirmation.None? && !verifying && transferAmount == "" && recipientEmail == ""
    {
      activeTab := "main";
      isPublic := InitialPublic(user);
      lang := InitialLang(user);
      pendingLang := "";
      otp := "";
      showLangOtp := false;
      otpType := Mobile;
      confirmation := None;
      verifying := false;
      transferAmount := "";
      recipientEmail := "";
    }

    /**
     * The effect on `[isOpen, user]` while the dialog is open: back to the main tab,
     * privacy and language from the user. It runs when the dialog opens and again
     * whenever the session's user changes, which the privacy switch and the
     * language change below both cause.
     */
    method Open(user: Option<User>)
      modifies this`activeTab, this`isPublic, this`lang
      ensures activeTab == "main" && isPublic == InitialPublic(user) && lang == InitialLang(user)
    {
      activeTab := "main";
      isPublic := InitialPublic(user);
      lang := InitialLang(user);
    }

    method SelectTab(tab: string)
      modifies this`activeTab
      ensures activeTab == tab
    {
      activeTab := tab;
    }

    /**
     * togglePrivacy, with `user` the session's user it starts from: the switch flips
     * only once the server accepts, and the returned `res.data.user` goes to the
     * session. That update reruns the reset effect: the dialog goes back to its main
     * tab, and the switch shows the returned user's privacy (`true` when that user
     * has none), not the flipped value.
     */
    method TogglePrivacy(user: Option<User>, res: Reply<UserValue>) returns (update: Option<UserValue>)
      modifies this`isPublic, this`activeTab, this`lang
      ensures update == if res.Ok? then Some(res.data) else None
      ensures res.Fail? ==> isPublic == old(isPublic) && activeTab == old(activeTab) && lang == old(lang)
      ensures res.Ok? && !UserChanges(user, res.data) ==>
        isPublic == !old(isPublic) && activeTab == old(activeTab) && lang == old(lang)
      ensures res.Ok? && UserChanges(user, res.data) ==>
        activeTab == "main" && isPublic == InitialPublic(res.data.AsOption()) && lang == InitialLang(res.data.AsOption())
      ensures res.Ok? && res.data.Defined? && res.data.user.isPublic == Some(!old(isPublic)) ==> isPublic == !old(isPublic)
    {
      var newStatus := !isPublic;
      update := None;
      if res.Ok? {
        isPublic := newStatus;
        update := Some(res.data);
        if UserChanges(user, res.data) {
          Open(res.data.AsOption());
        }
      }
    }

    /**
     * handleLanguageChange. The current language changes nothing. Otherwise the
     * choice becomes pending; French asks the server for an e-mailed code and
     * shows the code panel once that succeeds; any other language needs the
     * user's phone, normalised, and shows the panel when the code was sent or
     * demo mode took over. The number used is returned.
     */
    method HandleLanguageChange(newLang: string, user: Option<User>, request: Reply<()>, phoneAuth: PhoneAuth)
      returns (phoneUsed: Option<string>)
      modifies this`pendingLang, this`otpType, this`showLangOtp, this`confirmation
      ensures newLang == old(lang) ==> unchanged(this) && phoneUsed.None?
      ensures newLang != old(lang) ==> pendingLang == newLang
      ensures newLang != old(lang) && newLang == "fr" ==>
        phoneUsed.None? && confirmation == old(confirmation) &&
        otpType == (if request.Ok? then Email else old(otpType)) &&
        showLangOtp == (request.Ok? || old(showLangOtp))
      ensures newLang != old(lang) && newLang != "fr" ==> otpType == Mobile
      ensures newLang != old(lang) && newLang != "fr" && !(user.Some? && Truthy(user.value.phone)) ==>
        phoneUsed.None? && showLangOtp == old(showLangOtp) && confirmation == old(confirmation)
      ensures newLang != old(lang) && newLang != "fr" && user.Some? && Truthy(user.value.phone) ==>
        phoneUsed == Some(NormalisePhone(user.value.phone.value)) &&
        confirmation == (match phoneAuth
                         case CodeSent => Some(PhoneConfirmation)
                         case BillingNotEnabled => Some(DemoConfirmer)
                         case AuthError(_) => old(confirmation)) &&
        showLangOtp == (!phoneAuth.AuthError? || old(showLangOtp))
    {
      phoneUsed := None;
      if newLang == lang {
        return;
      }
      pendingLang := newLang;
      if newLang == "fr" {
        if request.Ok? {
          otpType := Email;
          showLangOtp := true;
        }
      } else {
        otpType := Mobile;
        if !(user.Some? && Truthy(user.value.phone)) {
          return;
        }
        var phoneNumber := NormalisePhone(user.value.phone.value);
        phoneUsed := Some(phoneNumber);
        match phoneAuth {
          case CodeSent =>
            confirmation := Some(PhoneConfirmation);
            showLangOtp := true;
          case BillingNotEnabled =>
            confirmation := Some(DemoConfirmer);
            showLangOtp := true;
          case AuthError(_) =>
        }
      }
    }

    method SetOtp(code: string)
      modifies this`otp
      ensures otp == code
    {
      otp := code;
    }

    /**
     * verifyLanguageOtp: by SMS the confirmation must accept the code (a missing
     * one throws) and the server must record the change; by e-mail the server
     * checks the code. Success hands the session a new user object with the
     * pending language, closes the panel and clears the code; the new user reruns
     * the reset effect, so the dialog is back on its main tab, with the user's
     * privacy, and with the language that user now has (the pending one, or `en`
     * when that is empty). Failure changes only the busy flag, which is off again
     * afterwards.
     */
    method VerifyLanguageOtp(user: Option<User>, phoneAccepts: bool, server: Reply<()>)
      returns (updated: Option<User>)
      modifies this`verifying, this`lang, this`showLangOtp, this`otp, this`activeTab, this`isPublic
      ensures var ok := server.Ok? && (otpType == Mobile ==> confirmation.Some? && Confirms(confirmation.value, old(otp), phoneAccepts));
        (ok ==> !showLangOtp && otp == "" &&
                updated == Some((if user.Some? then user.value else NoUser).(preferredLanguage := Some(pendingLang))) &&
                activeTab == "main" && isPublic == InitialPublic(user) && lang == InitialLang(updated)) &&
        (!ok ==> lang == old(lang) && showLangOtp == old(showLangOtp) && otp == old(otp) && updated.None? &&
                 activeTab == old(activeTab) && isPublic == old(isPublic))
      ensures !verifying
      ensures updated.Some? && pendingLang != "" ==> lang == pendingLang
      ensures otpType == Mobile && confirmation == Some(DemoConfirmer) ==> (updated.Some? <==> old(otp) == "123456" && server.Ok?)
      ensures otpType == Mobile && confirmation == Some(PhoneConfirmation) ==> (updated.Some? <==> phoneAccepts && server.Ok?)
      ensures otpType == Mobile && confirmation.None? ==> updated.None?
      ensures otpType == Email ==> (updated.Some? <==> server.Ok?)
    {
      verifying := true;
      updated := None;
      var ok: bool;
      if otpType == Mobile {
        ok := confirmation.Some? && Confirms(confirmation.value, otp, phoneAccepts) && server.Ok?;
      } else {
        ok := server.Ok?;
      }
      if ok {
        lang := pendingLang;
        var base := if user.Some? then user.value else NoUser;
        updated := Some(base.(preferredLanguage := Some(pendingLang)));
        showLangOtp := false;
        otp := "";
        Open(updated);
      }
      verifying := false;
    }

    /** handleTransfer: a completed transfer clears the form; a refused one keeps it. */
    method HandleTransfer(res: Reply<()>)
      modifies this`transferAmount, this`recipientEmail
      ensures transferAmount == if res.Ok? then "" else old(transferAmount)
      ensures recipientEmail == if res.Ok? then "" else old(recipientEmail)
    {
      if res.Ok? {
        transferAmount := "";
        recipientEmail := "";
      }
    }
  }
}
