/** The sign-up form of src/screens/SignupScreen.js: the three regular
    expressions it validates with, written as character classes, and
    `onSignup`, the sequence of checks that ends in `createUser`. */
module Signup {
  import opened Common
  import opened Repositories

  // ---------------------------------------------------------------------
  // validateEmail: /^[^\s@]+@[^\s@]+\.[^\s@]+$/ on email.toLowerCase()

  /** A run of `[^\s@]`: no white space and no `@`. */
  predicate Plain(s: string) {
    forall i :: 0 <= i < |s| ==> !IsSpace(s[i]) && s[i] != '@'
  }

  /** The pattern itself: a non-empty plain run, `@`, a non-empty plain run,
      `.`, a non-empty plain run, and nothing else. */
  predicate EmailPattern(t: string) {
    exists k, m :: 0 < k < |t| && k + 1 < m < |t| - 1 && t[k] == '@' && t[m] == '.' &&
      Plain(t[..k]) && Plain(t[k + 1..m]) && Plain(t[m + 1..])
  }

  /** Lines 13-16. */
  predicate ValidateEmail(email: string) {
    EmailPattern(ToLower(email))
  }

  /** What the pattern asks, said character by character: no white space,
      exactly one `@`, something before it, and a `.` after it that is
      neither the first nor the last character of the domain part. */
  predicate EmailShape(t: string) {
    (forall i :: 0 <= i < |t| ==> !IsSpace(t[i])) &&
    exists k :: 0 < k < |t| && t[k] == '@' && (forall i :: 0 <= i < |t| && i != k ==> t[i] != '@') &&
      exists m :: k + 1 < m < |t| - 1 && t[m] == '.'
  }

  lemma PatternHasShape(t: string, k: nat, m: nat)
    requires 0 < k < |t| && k + 1 < m < |t| - 1 && t[k] == '@' && t[m] == '.'
    requires Plain(t[..k]) && Plain(t[k + 1..m]) && Plain(t[m + 1..])
    ensures EmailShape(t)
  {
    var local, domain, top := t[..k], t[k + 1..m], t[m + 1..];
    forall i | 0 <= i < |t| && i != k ensures !IsSpace(t[i]) && t[i] != '@' {
      if i < k {
        assert local[i] == t[i];
      } else if i < m {
        assert domain[i - k - 1] == t[i];
      } else if i > m {
        assert top[i - m - 1] == t[i];
      }
    }
  }

  lemma ShapeHasPattern(t: string, k: nat, m: nat)
    requires 0 < k < |t| && t[k] == '@' && forall i :: 0 <= i < |t| && i != k ==> t[i] != '@'
    requires forall i :: 0 <= i < |t| ==> !IsSpace(t[i])
    requires k + 1 < m < |t| - 1 && t[m] == '.'
    ensures EmailPattern(t)
  {
    var local, domain, top := t[..k], t[k + 1..m], t[m + 1..];
    assert Plain(local) by {
      forall i | 0 <= i < |local| ensures !IsSpace(local[i]) && local[i] != '@' {
        assert local[i] == t[i];
      }
    }
    assert Plain(domain) by {
      forall i | 0 <= i < |domain| ensures !IsSpace(domain[i]) && domain[i] != '@' {
        assert domain[i] == t[k + 1 + i];
      }
    }
    assert Plain(top) by {
      forall i | 0 <= i < |top| ensures !IsSpace(top[i]) && top[i] != '@' {
        assert top[i] == t[m + 1 + i];
      }
    }
  }

  lemma EmailPatternIsShape(t: string)
    ensures EmailPattern(t) <==> EmailShape(t)
  {
    if EmailPattern(t) {
      var k, m :| 0 < k < |t| && k + 1 < m < |t| - 1 && t[k] == '@' && t[m] == '.' &&
        Plain(t[..k]) && Plain(t[k + 1..m]) && Plain(t[m + 1..]);
      PatternHasShape(t, k, m);
    }
    if EmailShape(t) {
      var k :| 0 < k < |t| && t[k] == '@' && (forall i :: 0 <= i < |t| && i != k ==> t[i] != '@') &&
        exists m :: k + 1 < m < |t| - 1 && t[m] == '.';
      var m :| k + 1 < m < |t| - 1 && t[m] == '.';
      ShapeHasPattern(t, k, m);
    }
  }

  /** Lower-casing changes no white space, `@` or `.`, so it never changes
      the verdict. */
  lemma LowerKeepsEmailShape(t: string)
    ensures EmailShape(ToLower(t)) <==> EmailShape(t)
  {
    var u := ToLower(t);
    assert forall i :: 0 <= i < |t| ==>
      (IsSpace(u[i]) <==> IsSpace(t[i])) && (u[i] == '@' <==> t[i] == '@') && (u[i] == '.' <==> t[i] == '.');
  }

  /** Lines 13-16: the email is accepted exactly when it has the shape
      above, whatever its case. */
  lemma ValidateEmailIff(email: string)
    ensures ValidateEmail(email) <==> EmailShape(email)
  {
    EmailPatternIsShape(ToLower(email));
    LowerKeepsEmailShape(email);
  }

  // ---------------------------------------------------------------------
  // validateNom: /^[A-Za-zÀ-ÖØ-öø-ÿ\s'-]+$/ on nom.trim()

  /** `[A-Za-zÀ-ÖØ-öø-ÿ\s'-]`: ASCII letters, U+00C0..U+00D6, U+00D8..U+00F6,
      U+00F8..U+00FF (Latin-1 letters without × and ÷), white space, the
      apostrophe and the hyphen. */
  predicate NomChar(c: char) {
    IsAsciiLetter(c) || (0xC0 <= c as int <= 0xD6) || (0xD8 <= c as int <= 0xF6) ||
    (0xF8 <= c as int <= 0xFF) || IsSpace(c) || c == '\'' || c == '-'
  }

  /** Lines 18-21. */
  predicate ValidateNom(nom: string) {
    var t := Trim(nom);
    |t| > 0 && forall i :: 0 <= i < |t| ==> NomChar(t[i])
  }

  /** Trimming first makes no difference beyond refusing a blank name: the
      name is accepted exactly when it is not all white space and every
      character is in the class. */
  lemma ValidateNomIff(nom: string)
    ensures ValidateNom(nom) <==> !AllSpace(nom) && forall i :: 0 <= i < |nom| ==> NomChar(nom[i])
  {
    TrimEmptyIffAllSpace(nom);
    TrimIsInfix(nom);
    var i, j :| 0 <= i <= j <= |nom| && Trim(nom) == nom[i..j] && AllSpace(nom[..i]) && AllSpace(nom[j..]);
    var t := Trim(nom);
    if ValidateNom(nom) {
      forall p | 0 <= p < |nom| ensures NomChar(nom[p]) {
        if p < i {
          assert nom[..i][p] == nom[p];
        } else if p < j {
          assert t[p - i] == nom[p];
        } else {
          assert nom[j..][p - j] == nom[p];
        }
      }
    }
    if !AllSpace(nom) && forall p :: 0 <= p < |nom| ==> NomChar(nom[p]) {
      forall q | 0 <= q < |t| ensures NomChar(t[q]) {
        assert t[q] == nom[i + q];
      }
    }
  }

  // ---------------------------------------------------------------------
  // validatePassword: /^(?=.*[A-Za-z])(?=.*\d)[A-Za-z\d@$!%*?&]{8,}$/

  /** `[A-Za-z\d@$!%*?&]` */
  predicate PasswordChar(c: char) {
    IsAsciiLetter(c) || IsDigit(c) || c == '@' || c == '$' || c == '!' || c == '%' || c == '*' || c == '?' || c == '&'
  }

  /** The pattern: at least 8 characters of the class, one of them a
      letter and one a digit (the two lookaheads). */
  predicate PasswordPattern(p: string) {
    |p| >= 8 && (forall i :: 0 <= i < |p| ==> PasswordChar(p[i])) &&
    (exists i :: 0 <= i < |p| && IsAsciiLetter(p[i])) && (exists i :: 0 <= i < |p| && IsDigit(p[i]))
  }

  /** One left-to-right pass over `p[i..]`, remembering whether a letter and
      a digit were seen: what a matcher of the pattern does. */
  function ScanPassword(p: string, i: nat, letter: bool, digit: bool): bool
    requires i <= |p|
    decreases |p| - i
  {
    if i == |p| then letter && digit
    else PasswordChar(p[i]) && ScanPassword(p, i + 1, letter || IsAsciiLetter(p[i]), digit || IsDigit(p[i]))
  }

  /** Lines 23-26. */
  predicate ValidatePassword(password: string) {
    |password| >= 8 && ScanPassword(password, 0, false, false)
  }

  lemma {:induction false} ScanPasswordIff(p: string, i: nat, letter: bool, digit: bool)
    requires i <= |p|
    ensures ScanPassword(p, i, letter, digit) <==>
      (forall k :: i <= k < |p| ==> PasswordChar(p[k])) &&
      (letter || exists k :: i <= k < |p| && IsAsciiLetter(p[k])) &&
      (digit || exists k :: i <= k < |p| && IsDigit(p[k]))
    decreases |p| - i
  {
    if i < |p| {
      ScanPasswordIff(p, i + 1, letter || IsAsciiLetter(p[i]), digit || IsDigit(p[i]));
    }
  }

  /** The pass accepts exactly the passwords the pattern describes. */
  lemma ValidatePasswordIff(password: string)
    ensures ValidatePassword(password) <==> PasswordPattern(password)
  {
    ScanPasswordIff(password, 0, false, false);
  }

  // ---------------------------------------------------------------------
  // onSignup

  /** Why `onSignup` stopped. */
  datatype Failure = BadNom | BadEmail | BadPassword | EmailTaken | InsertFailed

  /** The message `setError` shows for each failure. */
  function Message(f: Failure): string {
    match f
    case BadNom => "Le nom doit contenir uniquement des lettres."
    case BadEmail => "Adresse email invalide."
    case BadPassword => "Le mot de passe doit faire au moins 8 caractères, avec au moins une lettre et un chiffre."
    case EmailTaken => "Cet email est déjà utilisé."
    case InsertFailed => "Erreur lors de l'inscription."
  }

  const AccountCreated := "Compte créé, vous pouvez vous connecter."

  /** Lines 32-52: the first check that fails, in the order name, email,
      password, email already used; None when all pass. */
  function FirstFailure(nom: string, email: string, password: string, taken: bool): (r: Option<Failure>)
    ensures r.None? <==> ValidateNom(nom) && ValidateEmail(email) && ValidatePassword(password) && !taken
    ensures r == Some(BadNom) <==> !ValidateNom(nom)
    ensures r == Some(BadEmail) <==> ValidateNom(nom) && !ValidateEmail(email)
    ensures r == Some(BadPassword) <==> ValidateNom(nom) && ValidateEmail(email) && !ValidatePassword(password)
    ensures r == Some(EmailTaken) <==> ValidateNom(nom) && ValidateEmail(email) && ValidatePassword(password) && taken
  {
    if !ValidateNom(nom) then Some(BadNom)
    else if !ValidateEmail(email) then Some(BadEmail)
    else if !ValidatePassword(password) then Some(BadPassword)
    else if taken then Some(EmailTaken)
    else None
  }

  /** The screen's state: the three inputs and the two messages. */
  class SignupForm {
    const db: Database
    var nom: string
    var email: string
    var password: string
    var error: string
    var success: string

    ghost predicate Valid()
      reads this, db
    {
      db.Valid()
    }

    constructor (db: Database)
      requires db.Valid()
      ensures Valid() && this.db == db
      ensures nom == "" && email == "" && password == "" && error == "" && success == ""
    {
      this.db := db;
      nom, email, password, error, success := "", "", "", "", "";
    }

    /** Lines 28-64: both messages are cleared; the first failing check
        sets its message and nothing is written; when all pass,
        `createUser` inserts the raw (not lower-cased) email with the
        password's hash, the success message is shown and the three inputs
        are cleared. An insert that throws shows the generic error. */
    method OnSignup(sha256: string -> string, fail: bool)
      requires Valid()
      modifies this`nom, this`email, this`password, this`error, this`success, db`users, db`nextUserId
      ensures Valid()
      ensures var check := FirstFailure(old(nom), old(email), old(password), old(db.GetUserByEmail(email)).Some?);
        check.Some? ==>
          error == Message(check.value) && success == "" && db.users == old(db.users) &&
          db.nextUserId == old(db.nextUserId) && nom == old(nom) && email == old(email) && password == old(password)
      ensures var check := FirstFailure(old(nom), old(email), old(password), old(db.GetUserByEmail(email)).Some?);
        check.None? && fail ==>
          error == Message(InsertFailed) && success == "" && db.users == old(db.users) &&
          db.nextUserId == old(db.nextUserId) && nom == old(nom) && email == old(email) && password == old(password)
      ensures var check := FirstFailure(old(nom), old(email), old(password), old(db.GetUserByEmail(email)).Some?);
        check.None? && !fail ==>
          error == "" && success == AccountCreated && nom == "" && email == "" && password == "" &&
          db.users == old(db.users) + [User(old(db.nextUserId), old(nom), old(email), sha256(old(password)))] &&
          db.nextUserId == old(db.nextUserId) + 1
    {
      error := "";
      success := "";
      var check := Check();
      if check.Some? {
        error := Message(check.value);
        return;
      }
      Register(sha256, fail);
    }

    /** Lines 54-63, reached once every check has passed: the insert, then
        the generic error when it throws, or the success message and cleared
        inputs. */
    method Register(sha256: string -> string, fail: bool)
      requires Valid() && error == "" && success == ""
      requires forall i :: 0 <= i < |db.users| ==> db.users[i].email != email
      modifies this`nom, this`email, this`password, this`error, this`success, db`users, db`nextUserId
      ensures Valid()
      ensures fail ==>
        error == Message(InsertFailed) && success == "" && db.users == old(db.users) &&
        db.nextUserId == old(db.nextUserId) && nom == old(nom) && email == old(email) && password == old(password)
      ensures !fail ==>
        error == "" && success == AccountCreated && nom == "" && email == "" && password == "" &&
        db.users == old(db.users) + [User(old(db.nextUserId), old(nom), old(email), sha256(old(password)))] &&
        db.nextUserId == old(db.nextUserId) + 1
    {
      var r := db.CreateUser(nom, email, password, sha256, fail);
      if r.Err? {
        error := Message(InsertFailed);
        return;
      }
      success := AccountCreated;
      nom := "";
      email := "";
      password := "";
    }

    /** The checks of `onSignup`, in the order the screen makes them; the
        first that fails is the message shown. */
    method Check() returns (check: Option<Failure>)
      requires Valid()
      ensures check == FirstFailure(nom, email, password, db.GetUserByEmail(email).Some?)
    {
      if !ValidateNom(nom) {
        return Some(BadNom);
      }
      if !ValidateEmail(email) {
        return Some(BadEmail);
      }
      if !ValidatePassword(password) {
        return Some(BadPassword);
      }
      var existing := db.GetUserByEmail(email);
      if existing.Some? {
        return Some(EmailTaken);
      }
      return None;
    }
  }

  /** An account just created by `onSignup` logs in with the same email and
      password (users.js:19-25). */
  lemma SignupThenLogin(db: Database, prior: seq<User>, id: int, nom: string, email: string, password: string,
                        sha256: string -> string)
    requires db.Valid()
    requires forall i :: 0 <= i < |prior| ==> prior[i].email != email
    requires db.users == prior + [User(id, nom, email, sha256(password))]
    ensures db.LoginUser(email, password, sha256) == Some(User(id, nom, email, sha256(password)))
  {
    assert db.users[|prior|] == User(id, nom, email, sha256(password));
  }
}
