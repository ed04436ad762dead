/**
 * The per-field error maps the forms keep, and the change-handler step that
 * blanks one field's error.
 */
module FormErrors {
  import opened Wrappers
  import opened Text
  import opened Validation

  /** The property names the forms' error maps use: one per input, plus `general`. */
  datatype Key =
    | FullName | Name | Email | Phone | Location | Bio
    | Password | CurrentPassword | NewPassword | ConfirmPassword
    | General

  /** Field name to message; a cleared entry holds "". */
  type Errors = map<Key, string>

  /**
   * `if (errors[name]) setErrors({...errors, [name]: ''})`: only a
   * non-empty entry for `name` is blanked; no key is added or removed.
   */
  function ClearError(e: Errors, name: Key): (r: Errors)
    ensures r.Keys == e.Keys
    ensures forall k :: k in e ==> r[k] == if k == name then "" else e[k]
  {
    if name in e && e[name] != "" then e[name := ""] else e
  }

  /** Clearing twice is clearing once. */
  lemma ClearErrorIdempotent(e: Errors, name: Key)
    ensures ClearError(ClearError(e, name), name) == ClearError(e, name)
  {
  }

  /** Clearing two fields in either order gives the same map. */
  lemma ClearErrorCommutes(e: Errors, a: Key, b: Key)
    ensures ClearError(ClearError(e, a), b) == ClearError(ClearError(e, b), a)
  {
    var l := ClearError(ClearError(e, a), b);
    var r := ClearError(ClearError(e, b), a);
    assert l.Keys == r.Keys;
  }

  /** `Object.keys(e).length === 0` holds exactly for the empty map. */
  lemma NoKeysIsEmpty(e: Errors)
    ensures |e| == 0 <==> e == map[]
  {
    if e != map[] {
      var k :| k in e;
      assert |e.Keys| > 0 by { assert k in e.Keys; }
    }
  }

  /** `Object.keys(e).length === 0`: the validators' verdict on the map they built. */
  function NoErrors(e: Errors): (ok: bool)
    ensures ok <==> e == map[]
  {
    NoKeysIsEmpty(e);
    |e| == 0
  }

  /** `newErrors[name] = msg` when there is a message. */
  function Put(e: Errors, name: Key, msg: Option<string>): Errors {
    if msg.Some? then e[name := msg.value] else e
  }

  const EmailRequired := "Email is required"

  /**
   * The email rule every form applies inline: required after trimming,
   * otherwise it must match the email pattern, with the form's own wording
   * for `invalid`. There is at most one email message.
   */
  function EmailError(email: string, invalid: string): (r: Option<string>)
    ensures r.None? <==> ValidateEmail(email)
    ensures Blank(email) ==> r == Some(EmailRequired)
    ensures !Blank(email) && !ValidateEmail(email) ==> r == Some(invalid)
  {
    if Blank(email) then
      BlankIsNoEmail(email);
      Some(EmailRequired)
    else if !ValidateEmail(email) then Some(invalid)
    else None
  }
}
