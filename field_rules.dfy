/** The two field rules both auth forms apply, word for word: the email rule and
    the password rule. Each yields at most one message, and "required" is
    checked before the format or length rule. */
module FieldRules {
  import opened Wrappers
  import opened EmailCheck

  const EmailRequired := "Email is required"
  const EmailInvalid := "Please enter a valid email"
  const PasswordRequired := "Password is required"
  const PasswordTooShort := "Password must be at least 6 characters"

  /** The email rule: an empty address is missing; otherwise it must match the pattern. */
  function EmailError(email: string): Option<string>
  {
    RuleMessage(email == [], EmailRequired, !MatchesEmailPattern(email), EmailInvalid)
  }

  /** The email rule in plain terms: the "required" message exactly for the empty
      address, the "valid email" message exactly for a non-empty address without
      the shape of one, and no message otherwise. */
  lemma EmailRule(email: string)
    ensures email == [] <==> EmailError(email) == Some(EmailRequired)
    ensures email != [] && !EmailShape(email) <==> EmailError(email) == Some(EmailInvalid)
    ensures EmailError(email) == None <==> email != [] && EmailShape(email)
  {
    PatternIffShape(email);
  }

  /** The password rule: an empty password is missing; otherwise it needs 6 characters. */
  function PasswordError(password: string): (r: Option<string>)
    ensures password == [] <==> r == Some(PasswordRequired)
    ensures 0 < |password| < 6 <==> r == Some(PasswordTooShort)
    ensures r == None <==> |password| >= 6
  {
    RuleMessage(password == [], PasswordRequired, |password| < 6, PasswordTooShort)
  }

  /** Records field `f`'s message in an error record, if there is one; other
      fields are untouched. */
  function Put<K(!new)>(m: map<K, string>, f: K, e: Option<string>): (r: map<K, string>)
    ensures forall g :: g in r <==> g in m || (g == f && e.Some?)
    ensures forall g | g in r :: r[g] == if g == f && e.Some? then e.value else m[g]
  {
    if e.Some? then m[f := e.value] else m
  }

  /** The message of one field rule: "required" when the value is missing, else
      the rule's own message when it is broken. */
  function RuleMessage(missing: bool, requiredMsg: string, broken: bool, brokenMsg: string): Option<string>
  {
    if missing then Some(requiredMsg) else if broken then Some(brokenMsg) else None
  }

  /** One block of a `validate` handler: sets the field's entry of the error
      record to the "required" message or the rule's message, or leaves it out. */
  method CheckField<K(!new)>(m: map<K, string>, f: K, missing: bool, requiredMsg: string, broken: bool, brokenMsg: string)
    returns (r: map<K, string>)
    ensures r == Put(m, f, RuleMessage(missing, requiredMsg, broken, brokenMsg))
  {
    r := m;
    if missing {
      r := r[f := requiredMsg];
    } else if broken {
      r := r[f := brokenMsg];
    }
  }
}
