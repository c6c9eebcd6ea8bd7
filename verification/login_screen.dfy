/**
 * The login screen: the demo credential directory partitioned by role, the
 * two identifier formats, the form-validity check and the submit handler,
 * which checks the role first, then the form, then looks the credentials up
 * in the selected role's partition only.  The simulated one-second delay
 * before the lookup is not modelled: the lookup happens at once.
 */
module LoginScreen {
  import opened Wrappers
  import opened Roles
  import opened Text
  import opened Search
  import App

  /** One record of the directory: `{ email, password, name }`; `email` may hold a phone number. */
  datatype Account = Account(email: string, password: string, name: string)

  /**
   * `mockUsers`: each role's two accounts, the role's address `<role>@demo.com`
   * first and its phone number second, sharing one password and one name.
   * `DirectoryTable` lists the resulting records.
   */
  function MockUsers(r: Role): (users: seq<Account>)
    ensures |users| == 2
    ensures users[0].password == users[1].password && users[0].name == users[1].name
  {
    var password := if r == Admin then "admin123" else "demo123";
    [Account(Name(r) + "@demo.com", password, DisplayName(r)),
     Account(Phone(r), password, DisplayName(r))]
  }

  /** The name every account of a role carries. */
  function DisplayName(r: Role): string
  {
    match r
    case Patient => "John Patient"
    case Doctor => "Dr. Sarah Smith"
    case Staff => "Mary Reception"
    case Lab => "Lab Tech"
    case Pharmacy => "Pharmacist"
    case Admin => "Admin User"
  }

  /** The phone number of a role's second account: `987654321` and the role's position. */
  function Phone(r: Role): string
  {
    "987654321" + match r
      case Patient => "0"
      case Doctor => "1"
      case Staff => "2"
      case Lab => "3"
      case Pharmacy => "4"
      case Admin => "5"
  }

  /** The directory, record by record. */
  lemma DirectoryTable()
    ensures MockUsers(Patient) == [
      Account("patient@demo.com", "demo123", "John Patient"),
      Account("9876543210", "demo123", "John Patient")]
    ensures MockUsers(Doctor) == [
      Account("doctor@demo.com", "demo123", "Dr. Sarah Smith"),
      Account("9876543211", "demo123", "Dr. Sarah Smith")]
    ensures MockUsers(Staff) == [
      Account("staff@demo.com", "demo123", "Mary Reception"),
      Account("9876543212", "demo123", "Mary Reception")]
    ensures MockUsers(Lab) == [
      Account("lab@demo.com", "demo123", "Lab Tech"),
      Account("9876543213", "demo123", "Lab Tech")]
    ensures MockUsers(Pharmacy) == [
      Account("pharmacy@demo.com", "demo123", "Pharmacist"),
      Account("9876543214", "demo123", "Pharmacist")]
    ensures MockUsers(Admin) == [
      Account("admin@demo.com", "admin123", "Admin User"),
      Account("9876543215", "admin123", "Admin User")]
  {
    assert Name(Patient) + "@demo.com" == "patient@demo.com" && Phone(Patient) == "9876543210";
    assert Name(Doctor) + "@demo.com" == "doctor@demo.com" && Phone(Doctor) == "9876543211";
    assert Name(Staff) + "@demo.com" == "staff@demo.com" && Phone(Staff) == "9876543212";
    assert Name(Lab) + "@demo.com" == "lab@demo.com" && Phone(Lab) == "9876543213";
    assert Name(Pharmacy) + "@demo.com" == "pharmacy@demo.com" && Phone(Pharmacy) == "9876543214";
    assert Name(Admin) + "@demo.com" == "admin@demo.com" && Phone(Admin) == "9876543215";
  }

  // ---------------------------------------------------------------------------
  // Identifier formats

  /** No character is whitespace or `@`: the class `[^\s@]+` without its length. */
  predicate NoSpaceOrAt(s: string)
  {
    forall k :: 0 <= k < |s| ==> !IsSpace(s[k]) && s[k] != '@'
  }

  /**
   * `s` matches `^[^\s@]+@[^\s@]+\.[^\s@]+$` with the `@` at `i` and the
   * literal dot at `j`.
   */
  predicate EmailSplit(s: string, i: int, j: int)
  {
    && 0 < i && i + 1 < j < |s| - 1
    && s[i] == '@' && s[j] == '.'
    && NoSpaceOrAt(s[..i]) && NoSpaceOrAt(s[i + 1..j]) && NoSpaceOrAt(s[j + 1..])
  }

  lemma NoSpaceOrAtSlice(t: string, lo: nat, hi: nat)
    requires NoSpaceOrAt(t) && lo <= hi <= |t|
    ensures NoSpaceOrAt(t[lo..hi])
  {
  }

  /** The strings the email regular expression accepts. */
  ghost predicate EmailPattern(s: string)
  {
    exists i, j :: EmailSplit(s, i, j)
  }

  /**
   * `validateEmail`: a non-empty local part, one `@`, and a domain with a dot
   * that has at least one character on each side; no whitespace anywhere.
   */
  predicate ValidateEmail(value: string)
    ensures ValidateEmail(value) ==> '@' in value && |value| >= 5
  {
    match FindIndex(value, c => c == '@')
    case None => false
    case Some(at) =>
      var local, domain := value[..at], value[at + 1..];
      && local != [] && NoSpaceOrAt(local) && NoSpaceOrAt(domain)
      && |domain| >= 3 && '.' in domain[1..|domain| - 1]
  }

  /** `validatePhone`: the strings matching `^[0-9]{10}$`. */
  predicate ValidatePhone(value: string)
    ensures ValidatePhone(value) ==> '@' !in value
  {
    |value| == 10 && forall k :: 0 <= k < |value| ==> IsDigit(value[k])
  }

  /** `validateEmail` accepts exactly the strings its regular expression matches. */
  lemma ValidateEmailMatchesPattern(s: string)
    ensures ValidateEmail(s) <==> EmailPattern(s)
  {
    if ValidateEmail(s) {
      EmailHasSplit(s);
    }
    if EmailPattern(s) {
      var i, j :| EmailSplit(s, i, j);
      SplitIsEmail(s, i, j);
    }
  }

  /** An accepted address splits at its `@` and at a dot of the domain. */
  lemma EmailHasSplit(s: string)
    requires ValidateEmail(s)
    ensures EmailPattern(s)
  {
    var at := FindIndex(s, c => c == '@').value;
    var domain := s[at + 1..];
    var m :| 0 <= m < |domain[1..|domain| - 1]| && domain[1..|domain| - 1][m] == '.';
    var j := at + 2 + m;
    assert s[j] == '.';
    assert s[at + 1..j] == domain[..m + 1] && s[j + 1..] == domain[m + 2..];
    NoSpaceOrAtSlice(domain, 0, m + 1);
    NoSpaceOrAtSlice(domain, m + 2, |domain|);
    assert EmailSplit(s, at, j);
  }

  /** A string the regular expression matches is accepted. */
  lemma SplitIsEmail(s: string, i: int, j: int)
    requires EmailSplit(s, i, j)
    ensures ValidateEmail(s)
  {
    assert FindIndex(s, c => c == '@') == Some(i) by {
      assert forall k :: 0 <= k < i ==> s[..i][k] == s[k];
    }
    var domain := s[i + 1..];
    forall k | 0 <= k < |domain| ensures !IsSpace(domain[k]) && domain[k] != '@' {
      if k < j - i - 1 {
        assert domain[k] == s[i + 1..j][k];
      } else if k > j - i - 1 {
        assert domain[k] == s[j + 1..][k - (j - i)];
      }
    }
    assert domain[1..|domain| - 1][j - i - 2] == '.';
  }

  /** A string that contains no `@` is never an email address. */
  lemma NoAtIsNotEmail(s: string)
    requires '@' !in s
    ensures !ValidateEmail(s)
  {
  }

  /** No identifier is both an email address and a phone number: a phone number has no `@`. */
  lemma PhoneIsNotEmail(s: string)
    requires ValidatePhone(s)
    ensures !ValidateEmail(s)
  {
    NoAtIsNotEmail(s);
  }

  /** An identifier of either format is never blank after trimming. */
  lemma ValidIdentifierNotBlank(s: string)
    requires ValidateEmail(s) || ValidatePhone(s)
    ensures Trim(s) != []
  {
    TrimEmptyIffBlank(s);
    if ValidateEmail(s) {
      var at := FindIndex(s, c => c == '@').value;
      assert s[..at][0] == s[0];
    }
  }

  /** `isFormValid`: a role, a non-blank identifier and password, and an identifier of either format. */
  predicate IsFormValid(selectedRole: Option<Role>, emailOrPhone: string, password: string)
    ensures IsFormValid(selectedRole, emailOrPhone, password) ==> emailOrPhone != [] && password != []
  {
    && selectedRole.Some?
    && Trim(emailOrPhone) != []
    && Trim(password) != []
    && (ValidateEmail(emailOrPhone) || ValidatePhone(emailOrPhone))
  }

  // ---------------------------------------------------------------------------
  // Lookup and submission

  /** The `users.find` test: identifier and password both equal exactly. */
  predicate Matches(u: Account, emailOrPhone: string, password: string)
  {
    u.email == emailOrPhone && u.password == password
  }

  /** Position of the first account of `users` that matches, in stored order. */
  function Lookup(users: seq<Account>, emailOrPhone: string, password: string): (k: Option<nat>)
    ensures k.Some? ==> k.value < |users| && Matches(users[k.value], emailOrPhone, password)
    ensures k.Some? ==> forall l :: 0 <= l < k.value ==> !Matches(users[l], emailOrPhone, password)
    ensures k.None? <==> forall a :: a in users ==> !Matches(a, emailOrPhone, password)
  {
    FindIndex(users, (u: Account) => Matches(u, emailOrPhone, password))
  }

  /** Why a submission was turned down. */
  datatype Failure =
    | RoleMissing    // no role selected
    | FieldsInvalid  // the form is not valid
    | NoMatch        // no account of the selected role matches

  datatype Submission = SignedIn(user: App.User) | Rejected(failure: Failure)

  /** The toast shown for a submission (the no-match message is one sentence, written in two pieces). */
  function Toast(s: Submission): string
  {
    match s
    case SignedIn(user) => "Welcome back, " + user.name + "!"
    case Rejected(RoleMissing) => "Please select a role to continue"
    case Rejected(FieldsInvalid) => "Please fill in all fields correctly"
    case Rejected(NoMatch) => "Selected role does not match credentials." + " Please check and try again."
  }

  /**
   * The toast tells the outcomes apart: a greeting exactly on success, and a
   * different error message for each of the three failures.
   */
  lemma ToastsTellOutcomes(s1: Submission, s2: Submission)
    ensures StartsWith(Toast(s1), "Welcome back, ") <==> s1.SignedIn?
    ensures s1.Rejected? && Toast(s1) == Toast(s2) ==> s1 == s2
  {
    var greeting := "Welcome back, ";
    var t1, t2 := Toast(s1), Toast(s2);
    if s2.Rejected? {
      ErrorToast(s2.failure);
    } else {
      assert t2[0] == 'W';
    }
    match s1
    case SignedIn(_) =>
      assert t1[..|greeting|] == greeting;
    case Rejected(f) =>
      ErrorToast(f);
      assert |t1| >= |greeting| ==> t1[..|greeting|][0] == t1[0];
      if t1 == t2 {
        assert s2.Rejected?;
        ErrorToastLengths(f, s2.failure);
      }
  }

  /** An error message does not start with `W`. */
  lemma ErrorToast(f: Failure)
    ensures |Toast(Rejected(f))| > 0 && Toast(Rejected(f))[0] != 'W'
  {
    match f
    case RoleMissing => assert "Please select a role to continue"[0] == 'P';
    case FieldsInvalid => assert "Please fill in all fields correctly"[0] == 'P';
    case NoMatch =>
      var first, rest := "Selected role does not match credentials.", " Please check and try again.";
      assert Toast(Rejected(NoMatch)) == first + rest;
      assert (first + rest)[0] == first[0] == 'S';
  }

  /** The three error messages have different lengths. */
  lemma ErrorToastLengths(f1: Failure, f2: Failure)
    ensures |Toast(Rejected(f1))| == |Toast(Rejected(f2))| ==> f1 == f2
  {
    assert |"Please select a role to continue"| == 32;
    assert |"Please fill in all fields correctly"| == 35;
    assert |Toast(Rejected(NoMatch))| == 69;
  }

  /**
   * `handleLogin` as a value: the role check runs first, then the form
   * check, then the lookup in the selected role's partition.  On success the
   * user is the selected role with the name of the FIRST matching account;
   * on failure the reason does not say which field was wrong.
   */
  function Submit(selectedRole: Option<Role>, emailOrPhone: string, password: string): (r: Submission)
    ensures r == Rejected(RoleMissing) <==> selectedRole.None?
    ensures r == Rejected(FieldsInvalid) <==>
      selectedRole.Some? && !IsFormValid(selectedRole, emailOrPhone, password)
    ensures r.SignedIn? ==>
      && IsFormValid(selectedRole, emailOrPhone, password)
      && selectedRole == Some(r.user.role)
      && exists k :: 0 <= k < |MockUsers(r.user.role)|
           && Matches(MockUsers(r.user.role)[k], emailOrPhone, password)
           && MockUsers(r.user.role)[k].name == r.user.name
           && forall l :: 0 <= l < k ==> !Matches(MockUsers(r.user.role)[l], emailOrPhone, password)
    ensures r == Rejected(NoMatch) <==>
      && IsFormValid(selectedRole, emailOrPhone, password)
      && forall a :: a in MockUsers(selectedRole.value) ==> !Matches(a, emailOrPhone, password)
  {
    if selectedRole.None? then Rejected(RoleMissing)
    else if !IsFormValid(selectedRole, emailOrPhone, password) then Rejected(FieldsInvalid)
    else
      var users := MockUsers(selectedRole.value);
      match Lookup(users, emailOrPhone, password)
      case Some(k) => SignedIn(App.User(selectedRole.value, users[k].name))
      case None => Rejected(NoMatch)
  }

  // ---------------------------------------------------------------------------
  // The demo directory

  /** The password shown in the hint: `admin123` for the administrator, `demo123` otherwise. */
  function HintPassword(selectedRole: Option<Role>): string
  {
    if selectedRole == Some(Admin) then "admin123" else "demo123"
  }

  /** The email shown in the hint for a selected role. */
  function HintEmail(r: Role): string
  {
    Name(r) + "@demo.com"
  }

  /** The hinted credentials are a role's first account. */
  lemma HintIsFirstAccount(r: Role)
    ensures MockUsers(r)[0] == Account(HintEmail(r), HintPassword(Some(r)), DisplayName(r))
  {
  }

  lemma RoleNameClean(r: Role)
    ensures Name(r) != [] && NoSpaceOrAt(Name(r))
  {
  }

  /** `<local>@demo.com` is a valid email address for any well-formed local part. */
  lemma DemoEmailValid(local: string)
    requires local != [] && NoSpaceOrAt(local)
    ensures ValidateEmail(local + "@demo.com")
  {
    var s, n := local + "@demo.com", |local|;
    assert s[..n] == local && s[n] == '@' && s[n + 5] == '.';
    assert s[n + 1..n + 5] == "demo" && s[n + 6..] == "com";
    assert NoSpaceOrAt("demo") && NoSpaceOrAt("com");
    assert EmailSplit(s, n, n + 5);
    ValidateEmailMatchesPattern(s);
  }

  /** The hinted address is an email address and the phone number a phone number. */
  lemma IdentifierFormats(r: Role)
    ensures ValidateEmail(HintEmail(r)) && ValidatePhone(Phone(r))
  {
    RoleNameClean(r);
    DemoEmailValid(Name(r));
    assert ValidatePhone(Phone(r));
  }

  /** No two identifiers of the directory are equal. */
  lemma IdentifiersDistinct(r1: Role, r2: Role)
    ensures HintEmail(r1) != Phone(r2)
    ensures HintEmail(r1) == HintEmail(r2) ==> r1 == r2
    ensures Phone(r1) == Phone(r2) ==> r1 == r2
  {
    RoleNameClean(r1);
    assert |HintEmail(r1)| > 10 == |Phone(r2)|;
    if HintEmail(r1) == HintEmail(r2) {
      assert |Name(r1)| == |Name(r2)|;
      assert HintEmail(r1)[..|Name(r1)|] == Name(r1);
      assert HintEmail(r2)[..|Name(r2)|] == Name(r2);
      NameInjective(r1, r2);
    }
    if Phone(r1) == Phone(r2) {
      assert Phone(r1)[9] == Phone(r2)[9];
    }
  }

  /** Every account of the directory passes the form check. */
  lemma DirectoryWellFormed(r: Role, k: nat)
    requires k < |MockUsers(r)|
    ensures IsFormValid(Some(r), MockUsers(r)[k].email, MockUsers(r)[k].password)
  {
    var a := MockUsers(r)[k];
    assert a.password == HintPassword(Some(r));
    PasswordNotBlank(Some(r));
    IdentifierFormats(r);
    assert a.email == HintEmail(r) || a.email == Phone(r);
    ValidIdentifierNotBlank(a.email);
  }

  lemma PasswordNotBlank(selectedRole: Option<Role>)
    ensures Trim(HintPassword(selectedRole)) != []
  {
    var pw := HintPassword(selectedRole);
    TrimEmptyIffBlank(pw);
    assert pw[0] in "ad";
  }

  /**
   * A valid form whose credentials match account `k` of the selected role,
   * and no earlier one, signs in with that account's name.
   */
  lemma SubmitFirstMatch(r: Role, emailOrPhone: string, password: string, k: nat)
    requires IsFormValid(Some(r), emailOrPhone, password)
    requires k < |MockUsers(r)| && Matches(MockUsers(r)[k], emailOrPhone, password)
    requires forall l :: 0 <= l < k ==> !Matches(MockUsers(r)[l], emailOrPhone, password)
    ensures Submit(Some(r), emailOrPhone, password) == SignedIn(App.User(r, MockUsers(r)[k].name))
  {
    var s := Submit(Some(r), emailOrPhone, password);
    assert MockUsers(r)[k] in MockUsers(r);
    assert s.SignedIn?;
    var k' :| 0 <= k' < |MockUsers(r)|
      && Matches(MockUsers(r)[k'], emailOrPhone, password)
      && MockUsers(r)[k'].name == s.user.name
      && forall l :: 0 <= l < k' ==> !Matches(MockUsers(r)[l], emailOrPhone, password);
    assert k' == k;
  }

  /**
   * Every account signs in under its own role, with the role's display name;
   * no account of the directory is shadowed by another.
   */
  lemma ListedAccountsSignIn(r: Role, k: nat)
    requires k < |MockUsers(r)|
    ensures Submit(Some(r), MockUsers(r)[k].email, MockUsers(r)[k].password)
      == SignedIn(App.User(r, DisplayName(r)))
  {
    var a := MockUsers(r)[k];
    DirectoryWellFormed(r, k);
    EarlierAccountsDiffer(r, k);
    SubmitFirstMatch(r, a.email, a.password, k);
  }

  /** Within a partition, no account repeats an earlier account's identifier. */
  lemma EarlierAccountsDiffer(r: Role, k: nat)
    requires k < |MockUsers(r)|
    ensures forall l :: 0 <= l < k ==> MockUsers(r)[l].email != MockUsers(r)[k].email
  {
    forall l | 0 <= l < k ensures MockUsers(r)[l].email != MockUsers(r)[k].email {
      assert l == 0 && k == 1;
      IdentifiersDistinct(r, r);
      assert MockUsers(r)[0].email == HintEmail(r) != Phone(r) == MockUsers(r)[1].email;
    }
  }

  /** The hinted credentials sign in for every role. */
  lemma HintSignsIn(r: Role)
    ensures Submit(Some(r), HintEmail(r), HintPassword(Some(r))) == SignedIn(App.User(r, DisplayName(r)))
  {
    ListedAccountsSignIn(r, 0);
  }

  /** The role is never inferred from the credentials: another role's account does not sign in. */
  lemma CrossRoleRejected(owner: Role, claimed: Role, k: nat)
    requires owner != claimed && k < |MockUsers(owner)|
    ensures Submit(Some(claimed), MockUsers(owner)[k].email, MockUsers(owner)[k].password)
      == Rejected(NoMatch)
  {
    DirectoryWellFormed(owner, k);
    ForeignIdentifier(owner, claimed, k);
  }

  /** An identifier of one role's partition appears in no other partition. */
  lemma ForeignIdentifier(owner: Role, claimed: Role, k: nat)
    requires owner != claimed && k < |MockUsers(owner)|
    ensures forall b :: b in MockUsers(claimed) ==> b.email != MockUsers(owner)[k].email
  {
    var id := MockUsers(owner)[k].email;
    forall b | b in MockUsers(claimed) ensures b.email != id {
      var users := MockUsers(claimed);
      assert b == users[0] || b == users[1];
      assert users[0].email == HintEmail(claimed) && users[1].email == Phone(claimed);
      assert id == HintEmail(owner) || id == Phone(owner);
      IdentifiersDistinct(owner, claimed);
      IdentifiersDistinct(claimed, owner);
    }
  }

  /** Only the role's own password can sign in under that role, whatever the identifier. */
  lemma WrongPasswordRejected(r: Role, emailOrPhone: string, password: string)
    requires password != HintPassword(Some(r))
    ensures Submit(Some(r), emailOrPhone, password).Rejected?
  {
    var users := MockUsers(r);
    assert forall b :: b in users ==> b.password == HintPassword(Some(r));
  }

  /** The administrator's phone number with the other roles' password is turned down. */
  lemma AdminPhoneWithDemoPasswordRejected()
    ensures Submit(Some(Admin), "9876543215", "demo123") == Rejected(NoMatch)
  {
    var id, pw := Phone(Admin), HintPassword(Some(Patient));
    assert id == "9876543215" && pw == "demo123";
    WrongPasswordRejected(Admin, id, pw);
    IdentifierFormats(Admin);
    ValidIdentifierNotBlank(id);
    PasswordNotBlank(Some(Patient));
  }

  /** With no role selected the submission fails on the role alone, whatever else was typed. */
  lemma MissingRoleFirst(emailOrPhone: string, password: string)
    ensures Submit(None, emailOrPhone, password) == Rejected(RoleMissing)
  {
  }

  /**
   * An identifier with no `@` whose length is not ten fails the format
   * check, before any lookup, for every role and password; `12345` is one.
   */
  lemma MalformedIdentifierRejected(r: Role, emailOrPhone: string, password: string)
    requires '@' !in emailOrPhone && |emailOrPhone| != 10
    ensures Submit(Some(r), emailOrPhone, password) == Rejected(FieldsInvalid)
  {
    NoAtIsNotEmail(emailOrPhone);
  }

  /** The quick-access buttons: `(role, name)` pairs handed straight to `onLogin`. */
  const QuickAccess: seq<(Role, string)> := [
    (Patient, "John Patient"),
    (Doctor, "Dr. Sarah Smith"),
    (Staff, "Mary Reception"),
    (Lab, "Lab Tech"),
    (Pharmacy, "Pharmacist"),
    (Admin, "Admin User")
  ]

  /**
   * Quick access covers every role once, and each button's name is the name
   * every account of that role carries in the directory.
   */
  lemma QuickAccessMatchesDirectory()
    ensures forall k :: 0 <= k < |QuickAccess| ==> QuickAccess[k].0 == All[k]
    ensures forall k, a :: 0 <= k < |QuickAccess| && a in MockUsers(QuickAccess[k].0) ==>
      a.name == QuickAccess[k].1
  {
    forall k | 0 <= k < |QuickAccess| ensures QuickAccess[k].1 == DisplayName(QuickAccess[k].0) {
    }
  }

  /** The login form's state cells and its handlers. */
  class LoginForm {
    var selectedRole: Option<Role>
    var emailOrPhone: string
    var password: string

    /** Nothing selected, nothing typed. */
    constructor ()
      ensures selectedRole == None && emailOrPhone == "" && password == ""
    {
      selectedRole, emailOrPhone, password := None, "", "";
    }

    /** Choosing a role in the selector. */
    method SelectRole(r: Role)
      modifies this
      ensures selectedRole == Some(r)
      ensures emailOrPhone == old(emailOrPhone) && password == old(password)
    {
      selectedRole := Some(r);
    }

    /** Typing an identifier; the field is disabled until a role is selected. */
    method TypeEmailOrPhone(value: string)
      modifies this
      ensures emailOrPhone == if old(selectedRole).Some? then value else old(emailOrPhone)
      ensures selectedRole == old(selectedRole) && password == old(password)
    {
      if selectedRole.Some? {
        emailOrPhone := value;
      }
    }

    /** Typing a password; the field is disabled until a role is selected. */
    method TypePassword(value: string)
      modifies this
      ensures password == if old(selectedRole).Some? then value else old(password)
      ensures selectedRole == old(selectedRole) && emailOrPhone == old(emailOrPhone)
    {
      if selectedRole.Some? {
        password := value;
      }
    }

    /**
     * `handleLogin`: returns the toast it shows and, on success only, calls
     * `onLogin` (the application's `HandleLogin`) with the selected role and
     * the matching account's name.  A failed attempt leaves the session as it was.
     */
    method HandleLogin(app: App.Session) returns (toast: string)
      modifies app
      ensures var s := Submit(selectedRole, emailOrPhone, password);
        && toast == Toast(s)
        && app.currentUser == (if s.SignedIn? then Some(s.user) else old(app.currentUser))
    {
      var outcome: Submission;
      if selectedRole.None? {
        outcome := Rejected(RoleMissing);
      } else if !IsFormValid(selectedRole, emailOrPhone, password) {
        outcome := Rejected(FieldsInvalid);
      } else {
        var role := selectedRole.value;
        var users := MockUsers(role);
        var found := Lookup(users, emailOrPhone, password);
        if found.Some? {
          var user := users[found.value];
          outcome := SignedIn(App.User(role, user.name));
          app.HandleLogin(role, user.name);
        } else {
          outcome := Rejected(NoMatch);
        }
      }
      toast := Toast(outcome);
    }

    /** `handleQuickLogin`: signs in as `(role, name)` without any check. */
    method HandleQuickLogin(app: App.Session, role: Role, name: string) returns (toast: string)
      modifies app
      ensures toast == "Welcome back, " + name + "!"
      ensures app.currentUser == Some(App.User(role, name))
    {
      toast := Toast(SignedIn(App.User(role, name)));
      app.HandleLogin(role, name);
    }
  }
}
