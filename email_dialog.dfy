/**
 * The email form of src/components/EmailDialog.tsx: three address lists (to, cc, bcc) with an
 * input line each, the address check `^[^\s@]+@[^\s@]+\.[^\s@]+$`, and what a submit hands on.
 */
module EmailDialog {
  import opened Common
  import opened Strings
  import opened Store

  // ---------------------------------------------------------------------------
  // The address check

  /** A run of the pattern's `[^\s@]+`: non-empty, with no '@' and no space character. */
  predicate Plain(x: string)
  {
    x != [] && forall k | 0 <= k < |x| :: x[k] != '@' && !IsSpace(x[k])
  }

  /** The pattern read as a shape: a plain part, '@', a plain part, '.', a plain part. */
  ghost predicate MatchesPattern(s: string)
  {
    exists a, b, c | Plain(a) && Plain(b) && Plain(c) :: s == a + "@" + b + "." + c
  }

  /** The position of the first occurrence of `ch`, or -1. */
  function IndexOf(s: string, ch: char): (i: int)
    ensures -1 <= i < |s|
    ensures i >= 0 ==> s[i] == ch
    ensures forall j | 0 <= j < |s| && (i < 0 || j < i) :: s[j] != ch
  {
    if s == [] then -1
    else if s[0] == ch then 0
    else
      var j := IndexOf(s[1..], ch);
      if j < 0 then -1 else j + 1
  }

  /**
   * The address check as a scan: no space, a first '@' that is not the first character and is
   * followed by no other '@', and a '.' after it with at least one character on each side.
   */
  predicate ValidAddress(s: string)
  {
    var i := IndexOf(s, '@');
    && NoSpace(s) && 0 < i && i + 3 <= |s|
    && '@' !in s[i + 1..] && '.' in s[i + 2..|s| - 1]
  }

  /** An address passing the scan has the pattern's shape. */
  lemma ValidAddressHasShape(s: string)
    requires ValidAddress(s)
    ensures MatchesPattern(s)
  {
    var i := IndexOf(s, '@');
    var tail := s[i + 2..|s| - 1];
    var k :| 0 <= k < |tail| && tail[k] == '.';
    var j := i + 2 + k;
    assert s[j] == '.';
    NoAtAfter(s, i + 1);
    PlainSlice(s, 0, i);
    PlainSlice(s, i + 1, j);
    PlainSlice(s, j + 1, |s|);
    Around(s, i, j);
  }

  /** A text is its part before an '@', the '@', the part up to a later '.', the '.', and the rest. */
  lemma Around(s: string, i: nat, j: nat)
    requires i < j < |s| && s[i] == '@' && s[j] == '.'
    ensures s == s[..i] + "@" + s[i + 1..j] + "." + s[j + 1..]
  {
    assert s[i..] == [s[i]] + s[i + 1..];
    assert s[i + 1..] == s[i + 1..j] + [s[j]] + s[j + 1..];
    assert s == s[..i] + s[i..];
  }

  /** No '@' in a suffix means no '@' at any of its positions. */
  lemma NoAtAfter(s: string, x: nat)
    requires x <= |s| && '@' !in s[x..]
    ensures forall m | x <= m < |s| :: s[m] != '@'
  {
    forall m | x <= m < |s| ensures s[m] != '@' {
      assert s[m] == s[x..][m - x];
    }
  }

  /** A non-empty slice of a space-free text with no '@' in it is a plain part. */
  lemma PlainSlice(s: string, x: nat, y: nat)
    requires x < y <= |s| && NoSpace(s) && forall m | x <= m < y :: s[m] != '@'
    ensures Plain(s[x..y])
  {
    forall m | 0 <= m < y - x ensures s[x..y][m] != '@' && !IsSpace(s[x..y][m]) {
      assert s[x..y][m] == s[x + m];
    }
  }

  /** An address of the pattern's shape passes the scan. */
  lemma ShapeIsValidAddress(s: string, a: string, b: string, c: string)
    requires Plain(a) && Plain(b) && Plain(c) && s == a + "@" + b + "." + c
    ensures ValidAddress(s)
  {
    var i := |a|;
    var j := |a| + 1 + |b|;
    assert forall m | 0 <= m < |a| :: s[m] == a[m];
    assert s[i] == '@' && s[j] == '.';
    assert forall m | 0 <= m < |b| :: s[i + 1 + m] == b[m];
    assert forall m | 0 <= m < |c| :: s[j + 1 + m] == c[m];
    assert NoSpace(s);
    assert IndexOf(s, '@') == i;
    var after := s[i + 1..];
    forall m | 0 <= m < |after| ensures after[m] != '@' {
      assert after[m] == s[i + 1 + m];
    }
    assert s[i + 2..|s| - 1][j - i - 2] == '.';
  }

  /** The scan accepts exactly the addresses of the pattern's shape. */
  lemma ValidAddressIffPattern(s: string)
    ensures ValidAddress(s) <==> MatchesPattern(s)
  {
    if ValidAddress(s) {
      ValidAddressHasShape(s);
    }
    if MatchesPattern(s) {
      var a, b, c :| Plain(a) && Plain(b) && Plain(c) && s == a + "@" + b + "." + c;
      ShapeIsValidAddress(s, a, b, c);
    }
  }

  /** `list.filter(e => e !== address)`. */
  function RemoveAll(list: seq<string>, address: string): (r: seq<string>)
    ensures |r| <= |list|
    ensures forall e :: e in r <==> e in list && e != address
  {
    if list == [] then []
    else if list[0] == address then RemoveAll(list[1..], address)
    else [list[0]] + RemoveAll(list[1..], address)
  }

  /** Removing an address after adding it leaves the list as removing it from the original would. */
  lemma {:induction false} RemoveUndoesAdd(list: seq<string>, address: string)
    ensures RemoveAll(list + [address], address) == RemoveAll(list, address)
  {
    if list == [] {
      assert list + [address] == [address];
    } else {
      assert (list + [address])[0] == list[0] && (list + [address])[1..] == list[1..] + [address];
      RemoveUndoesAdd(list[1..], address);
    }
  }

  // ---------------------------------------------------------------------------
  // The form

  /** The three address lists. */
  datatype Field = Recipients | Cc | Bcc

  /** What a submit hands on. */
  datatype EmailData = EmailData(subject: string, body: string, recipients: seq<string>, cc: Option<seq<string>>,
                                 bcc: Option<seq<string>>, status: EmailStatus)

  /** `list.length > 0 ? list : undefined`. */
  function NonEmptyOrNone(list: seq<string>): (r: Option<seq<string>>)
    ensures r.None? <==> list == []
    ensures r.Some? ==> r.value == list
  {
    if |list| > 0 then Some(list) else None
  }

  /** The dialog's state. */
  class EmailForm {
    var subject: string
    var body: string
    var recipients: seq<string>
    var cc: seq<string>
    var bcc: seq<string>
    var recipientInput: string
    var ccInput: string
    var bccInput: string

    /** The initial state: every field empty. */
    constructor ()
      ensures subject == "" && body == "" && recipients == [] && cc == [] && bcc == []
      ensures recipientInput == "" && ccInput == "" && bccInput == ""
    {
      subject, body := "", "";
      recipients, cc, bcc := [], [], [];
      recipientInput, ccInput, bccInput := "", "", "";
    }

    /** The list a field names. */
    function ListOf(field: Field): seq<string>
      reads this
    {
      match field
      case Recipients => recipients
      case Cc => cc
      case Bcc => bcc
    }

    /** The input line of a field. */
    function InputOf(field: Field): string
      reads this
    {
      match field
      case Recipients => recipientInput
      case Cc => ccInput
      case Bcc => bccInput
    }

    /** The effect run when the dialog opens: the lists and texts of the email, or empty ones; the input lines are kept. */
    method Open(email: Option<Email>)
      modifies this
      ensures email.None? ==> subject == "" && body == "" && recipients == [] && cc == [] && bcc == []
      ensures email.Some? ==>
                && subject == email.value.subject && body == email.value.body
                && recipients == email.value.recipients
                && cc == (if email.value.cc.Some? then email.value.cc.value else [])
                && bcc == (if email.value.bcc.Some? then email.value.bcc.value else [])
      ensures recipientInput == old(recipientInput) && ccInput == old(ccInput) && bccInput == old(bccInput)
    {
      match email
      case None =>
        subject, body, recipients, cc, bcc := "", "", [], [], [];
      case Some(e) =>
        subject, body, recipients := e.subject, e.body, e.recipients;
        cc := if e.cc.Some? then e.cc.value else [];
        bcc := if e.bcc.Some? then e.bcc.value else [];
    }

    /** `addRecipient`: a valid, non-empty address is appended to the chosen list (duplicates included); nothing else changes. */
    method AddRecipient(address: string, field: Field)
      modifies this
      ensures ListOf(field) == if address != "" && ValidAddress(address) then old(ListOf(field)) + [address]
                               else old(ListOf(field))
      ensures forall f | f != field :: ListOf(f) == old(ListOf(f))
      ensures forall f :: InputOf(f) == old(InputOf(f))
      ensures subject == old(subject) && body == old(body)
    {
      if address != "" && ValidAddress(address) {
        match field
        case Recipients => recipients := recipients + [address];
        case Cc => cc := cc + [address];
        case Bcc => bcc := bcc + [address];
      }
    }

    /** `removeRecipient`: every occurrence of the address leaves the chosen list only. */
    method RemoveRecipient(address: string, field: Field)
      modifies this
      ensures ListOf(field) == RemoveAll(old(ListOf(field)), address)
      ensures forall f | f != field :: ListOf(f) == old(ListOf(f))
      ensures forall f :: InputOf(f) == old(InputOf(f))
      ensures subject == old(subject) && body == old(body)
    {
      match field
      case Recipients => recipients := RemoveAll(recipients, address);
      case Cc => cc := RemoveAll(cc, address);
      case Bcc => bcc := RemoveAll(bcc, address);
    }

    /** `handleKeyPress`: Enter or ',' tries to add the field's input line and always clears it; other keys change nothing. */
    method HandleKeyPress(key: string, field: Field)
      modifies this
      ensures key != "Enter" && key != "," ==>
                && (forall f :: ListOf(f) == old(ListOf(f)) && InputOf(f) == old(InputOf(f)))
                && subject == old(subject) && body == old(body)
      ensures key == "Enter" || key == "," ==>
                && InputOf(field) == ""
                && ListOf(field) == (if old(InputOf(field)) != "" && ValidAddress(old(InputOf(field)))
                                     then old(ListOf(field)) + [old(InputOf(field))] else old(ListOf(field)))
                && (forall f | f != field :: ListOf(f) == old(ListOf(f)) && InputOf(f) == old(InputOf(f)))
                && subject == old(subject) && body == old(body)
    {
      if key == "Enter" || key == "," {
        AddRecipient(InputOf(field), field);
        ClearInput(field);
      }
    }

    /** Empties the input line of a field; nothing else changes. */
    method ClearInput(field: Field)
      modifies this
      ensures InputOf(field) == ""
      ensures forall f | f != field :: InputOf(f) == old(InputOf(f))
      ensures forall f :: ListOf(f) == old(ListOf(f))
      ensures subject == old(subject) && body == old(body)
    {
      match field
      case Recipients => recipientInput := "";
      case Cc => ccInput := "";
      case Bcc => bccInput := "";
    }

    /**
     * `handleSubmit`: nothing without a non-blank subject and body and a recipient; otherwise the
     * trimmed texts, the lists (cc and bcc only when non-empty) and the email's status, DRAFT for a
     * new one.
     */
    function Submission(email: Option<Email>): (r: Option<EmailData>)
      reads this
      ensures r.None? <==> AllSpace(subject) || AllSpace(body) || recipients == []
      ensures r.Some? ==>
                && r.value.subject == Trim(subject) && r.value.subject != ""
                && r.value.body == Trim(body) && r.value.body != ""
                && r.value.recipients == recipients && r.value.recipients != []
                && r.value.cc == NonEmptyOrNone(cc) && r.value.bcc == NonEmptyOrNone(bcc)
                && r.value.status == (if email.Some? then email.value.status else DRAFT)
    {
      if Trim(subject) == "" || Trim(body) == "" || |recipients| == 0 then None
      else Some(EmailData(Trim(subject), Trim(body), recipients, NonEmptyOrNone(cc), NonEmptyOrNone(bcc),
                          if email.Some? then email.value.status else DRAFT))
    }
  }

  /**
   * Opening an email and submitting it unchanged hands on the email's own fields, when its texts
   * are trimmed and not empty and it has a recipient; an empty cc or bcc list becomes absent.
   */
  lemma OpenedEmailRoundTrip(form: EmailForm, e: Email)
    requires Trimmed(e.subject) && e.subject != "" && Trimmed(e.body) && e.body != "" && e.recipients != []
    requires form.subject == e.subject && form.body == e.body && form.recipients == e.recipients
    requires form.cc == (if e.cc.Some? then e.cc.value else [])
    requires form.bcc == (if e.bcc.Some? then e.bcc.value else [])
    ensures var r := form.Submission(Some(e));
            && r == Some(EmailData(e.subject, e.body, e.recipients, r.value.cc, r.value.bcc, e.status))
            && (e.cc.Some? && e.cc.value != [] ==> r.value.cc == e.cc)
            && (e.bcc.Some? && e.bcc.value != [] ==> r.value.bcc == e.bcc)
  {
    TrimOfTrimmed(e.subject);
    TrimOfTrimmed(e.body);
  }

  /** Adding an accepted address and then removing it leaves the list as a removal alone would. */
  method AddThenRemove(form: EmailForm, address: string, field: Field)
    modifies form
    ensures form.ListOf(field) == RemoveAll(old(form.ListOf(field)), address)
  {
    form.AddRecipient(address, field);
    form.RemoveRecipient(address, field);
    RemoveUndoesAdd(old(form.ListOf(field)), address);
  }
}
