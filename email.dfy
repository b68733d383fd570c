/** The bulk e-mail sender: each template is personalised for a recipient
    by substituting six placeholders in order, and a bulk run tallies the
    recipients whose message went out. The SMTP connection and the
    server's acceptance of a message are inputs. */
module Email {
  import opened Wrappers
  import opened Text

  /** A CSV row: column name to cell text. */
  type Recipient = map<string, string>

  const DEFAULT_NAME: string := "Valued Customer"
  const DEFAULT_FIRST_NAME: string := "Valued"

  /** The placeholders, in the order they are substituted. */
  const PLACEHOLDERS: seq<string> :=
    ["{name}", "{first_name}", "{email}", "{company}", "{date}", "{sender_name}"]

  /** dict.get(key, default) */
  function Get(recipient: Recipient, key: string, default: string): string
  {
    if key in recipient then recipient[key] else default
  }

  /** name.split()[0]: the first whitespace-separated word of a name; a
      blank name has none and fails as IndexError. */
  function FirstName(name: string): (r: Result<string, PyError>)
    ensures r.Failure? <==> AllSpace(name)
    ensures r.Failure? ==> r.error == IndexError
    ensures r.Success? ==> r.value != [] && NoSpace(r.value) && exists k: nat :: FirstRunAt(name, r.value, k)
  {
    WordsEmptyIffBlank(name);
    var ws := Words(name);
    if ws == [] then Failure(IndexError)
    else
      FirstWordIsFirstRun(name);
      Success(ws[0])
  }

  /** The default name yields the default first name. */
  lemma DefaultFirstName()
    ensures FirstName(DEFAULT_NAME) == Success(DEFAULT_FIRST_NAME)
  {
    assert !IsSpace(DEFAULT_NAME[0]);
    assert DEFAULT_NAME == DEFAULT_FIRST_NAME + " Customer";
    WordsOfWordThen(DEFAULT_FIRST_NAME, " Customer");
  }

  /** The replacements dict of personalize_content, as (placeholder, value)
      pairs in insertion order. The dict is built in full before any
      substitution, so a blank name fails the whole call. */
  function Replacements(recipient: Recipient, today: string, senderName: string)
    : (r: Result<seq<(string, string)>, PyError>)
    ensures r.Failure? <==> "name" in recipient && AllSpace(recipient["name"])
    ensures r.Failure? ==> r.error == IndexError
    ensures r.Success? ==>
              && |r.value| == |PLACEHOLDERS|
              && (forall i :: 0 <= i < |PLACEHOLDERS| ==> r.value[i].0 == PLACEHOLDERS[i])
              && NonEmptyKeys(r.value)
              && r.value[2].1 == Get(recipient, "email", "")
              && r.value[3].1 == Get(recipient, "company", "")
              && r.value[4].1 == today
              && r.value[5].1 == senderName
    ensures "name" !in recipient ==>
              r.Success? && r.value[0].1 == DEFAULT_NAME && r.value[1].1 == DEFAULT_FIRST_NAME
    ensures "name" in recipient && r.Success? ==>
              && r.value[0].1 == recipient["name"]
              && r.value[1].1 != [] && NoSpace(r.value[1].1)
              && exists k: nat :: FirstRunAt(recipient["name"], r.value[1].1, k)
  {
    var name := Get(recipient, "name", DEFAULT_NAME);
    // DefaultFirstName: the first word of the default name.
    var first := if "name" !in recipient then Success(DEFAULT_FIRST_NAME) else FirstName(recipient["name"]);
    if first.Failure? then Failure(first.error)
    else
      Success([("{name}", name), ("{first_name}", first.value), ("{email}", Get(recipient, "email", "")),
               ("{company}", Get(recipient, "company", "")), ("{date}", today), ("{sender_name}", senderName)])
  }

  predicate NonEmptyKeys(pairs: seq<(string, string)>)
  {
    forall i :: 0 <= i < |pairs| ==> pairs[i].0 != []
  }

  /** Replace every occurrence of each placeholder by its value, one
      placeholder after another. */
  function Substitute(content: string, pairs: seq<(string, string)>): string
    requires NonEmptyKeys(pairs)
    decreases |pairs|
  {
    if pairs == [] then content
    else Substitute(ReplaceAll(content, pairs[0].0, pairs[0].1), pairs[1..])
  }

  /** Content that holds none of the placeholders comes back unchanged. */
  lemma {:induction false} SubstituteAbsent(content: string, pairs: seq<(string, string)>)
    requires NonEmptyKeys(pairs)
    requires forall i :: 0 <= i < |pairs| ==> !Occurs(content, pairs[i].0)
    ensures Substitute(content, pairs) == content
    decreases |pairs|
  {
    if pairs != [] {
      ReplaceAbsent(content, pairs[0].0, pairs[0].1);
      SubstituteAbsent(content, pairs[1..]);
    }
  }

  /** One turn of the loop: the first remaining placeholder is replaced. */
  lemma SubstituteStep(content: string, pairs: seq<(string, string)>, i: nat)
    requires NonEmptyKeys(pairs) && i < |pairs|
    ensures Substitute(content, pairs[i..]) == Substitute(ReplaceAll(content, pairs[i].0, pairs[i].1), pairs[i + 1..])
  {
    assert pairs[i..][1..] == pairs[i + 1..];
  }

  /** personalize_content: the loop over the replacements, in order. */
  method PersonalizeContent(content: string, recipient: Recipient, today: string, senderName: string)
    returns (r: Result<string, PyError>)
    ensures Replacements(recipient, today, senderName).Failure? ==> r == Failure(IndexError)
    ensures Replacements(recipient, today, senderName).Success? ==>
              r == Success(Substitute(content, Replacements(recipient, today, senderName).value))
  {
    var reps := Replacements(recipient, today, senderName);
    if reps.Failure? {
      return Failure(reps.error);
    }
    var pairs := reps.value;
    var current := content;
    for i := 0 to |pairs|
      invariant Substitute(content, pairs) == Substitute(current, pairs[i..])
    {
      SubstituteStep(current, pairs, i);
      current := ReplaceAll(current, pairs[i].0, pairs[i].1);
    }
    r := Success(current);
  }

  /** Content with none of the six placeholders is personalised to itself,
      for every recipient whose replacements can be built. */
  lemma PersonalizeUnchanged(content: string, recipient: Recipient, today: string, senderName: string)
    requires forall i :: 0 <= i < |PLACEHOLDERS| ==> !Occurs(content, PLACEHOLDERS[i])
    requires Replacements(recipient, today, senderName).Success?
    ensures Substitute(content, Replacements(recipient, today, senderName).value) == content
  {
    SubstituteAbsent(content, Replacements(recipient, today, senderName).value);
  }

  /** `if body_html`: an HTML body is present and not empty. */
  predicate HasHtml(bodyHtml: Option<string>)
  {
    bodyHtml.Some? && bodyHtml.value != []
  }

  /** send_single_email. `accepted` says whether building and sending the
      message succeeds; the message itself is not part of the model. A
      failed personalisation or send answers false; a
      recipient without an email fails with KeyError, since the log lines
      on both paths read it. */
  method SendSingleEmail(recipient: Recipient, subject: string, body: string, bodyHtml: Option<string>,
                         today: string, senderName: string, accepted: bool)
    returns (r: Result<bool, PyError>)
    ensures "email" !in recipient ==> r == Failure(KeyError("email"))
    ensures "email" in recipient ==>
              r == Success(Replacements(recipient, today, senderName).Success? && accepted)
  {
    var s := PersonalizeContent(subject, recipient, today, senderName);
    var b := PersonalizeContent(body, recipient, today, senderName);
    var hOk := true;
    if HasHtml(bodyHtml) {
      var h := PersonalizeContent(bodyHtml.value, recipient, today, senderName);
      hOk := h.Success?;
    }
    if "email" !in recipient {
      return Failure(KeyError("email"));
    }
    if s.Failure? || b.Failure? || !hOk {
      return Success(false);
    }
    r := Success(accepted);
  }

  /** What send_bulk_emails returns. */
  datatype Tally = Tally(sent: nat, failed: nat, errors: seq<string>)

  /** Recipient i's message goes out. */
  predicate Succeeds(recipient: Recipient, i: nat, today: string, senderName: string, accepts: nat -> bool)
  {
    Replacements(recipient, today, senderName).Success? && accepts(i)
  }

  /** The first n recipients have an email column. */
  predicate HaveEmails(recipients: seq<Recipient>, n: nat)
    requires n <= |recipients|
  {
    forall i :: 0 <= i < n ==> "email" in recipients[i]
  }

  /** How many of the first n recipients were sent to. */
  function SentCount(recipients: seq<Recipient>, n: nat, today: string, senderName: string, accepts: nat -> bool): nat
    requires n <= |recipients|
  {
    if n == 0 then 0
    else SentCount(recipients, n - 1, today, senderName, accepts)
         + if Succeeds(recipients[n - 1], n - 1, today, senderName, accepts) then 1 else 0
  }

  /** The emails of the first n recipients that failed, in recipient order. */
  function FailedEmails(recipients: seq<Recipient>, n: nat, today: string, senderName: string, accepts: nat -> bool)
    : seq<string>
    requires n <= |recipients| && HaveEmails(recipients, n)
  {
    if n == 0 then []
    else
      FailedEmails(recipients, n - 1, today, senderName, accepts)
      + if Succeeds(recipients[n - 1], n - 1, today, senderName, accepts) then [] else [recipients[n - 1]["email"]]
  }

  /** Every recipient is either sent to or listed among the errors. */
  lemma {:induction false} TallyCovers(recipients: seq<Recipient>, n: nat, today: string, senderName: string,
                                       accepts: nat -> bool)
    requires n <= |recipients| && HaveEmails(recipients, n)
    ensures SentCount(recipients, n, today, senderName, accepts)
            + |FailedEmails(recipients, n, today, senderName, accepts)| == n
  {
    if n > 0 {
      TallyCovers(recipients, n - 1, today, senderName, accepts);
    }
  }

  /** One more recipient: counted as sent, or its email appended to the errors. */
  lemma TallyStep(recipients: seq<Recipient>, i: nat, today: string, senderName: string, accepts: nat -> bool)
    requires i < |recipients| && HaveEmails(recipients, i) && "email" in recipients[i]
    ensures HaveEmails(recipients, i + 1)
    ensures var ok := Succeeds(recipients[i], i, today, senderName, accepts);
      && SentCount(recipients, i + 1, today, senderName, accepts)
         == SentCount(recipients, i, today, senderName, accepts) + (if ok then 1 else 0)
      && FailedEmails(recipients, i + 1, today, senderName, accepts)
         == FailedEmails(recipients, i, today, senderName, accepts) + (if ok then [] else [recipients[i]["email"]])
  {
  }

  /** The first recipient without an email column. */
  predicate FirstWithoutEmail(recipients: seq<Recipient>, j: nat)
  {
    j < |recipients| && "email" !in recipients[j] && HaveEmails(recipients, j)
  }

  function Range(n: nat): seq<nat>
  {
    seq(n, i => i)
  }

  lemma RangeSnoc(n: nat)
    ensures Range(n) + [n] == Range(n + 1)
  {
  }

  /** How many pauses the first i of n recipients are followed by: one after
      each but the last, and none without a positive delay. */
  function PauseCount(delay: int, i: nat, n: nat): nat
  {
    if delay <= 0 then 0 else if i < n then i else if n > 0 then n - 1 else 0
  }

  /** send_bulk_emails from the connection on. `connected` is whether
      connect_smtp succeeded and `accepts(i)` whether the i-th message is
      accepted; `pauses` lists the indices after which the sender sleeps
      for `delay` seconds. */
  method SendBulkEmails(recipients: seq<Recipient>, subject: string, body: string, bodyHtml: Option<string>,
                        today: string, senderName: string, connected: bool, accepts: nat -> bool, delay: int)
    returns (r: Result<Tally, PyError>, pauses: seq<nat>)
    ensures !connected ==> r == Success(Tally(0, 0, [])) && pauses == []
    ensures connected && HaveEmails(recipients, |recipients|) ==>
              && r.Success?
              && r.value.sent + r.value.failed == |recipients|
              && r.value.sent == SentCount(recipients, |recipients|, today, senderName, accepts)
              && r.value.errors == FailedEmails(recipients, |recipients|, today, senderName, accepts)
              && r.value.failed == |r.value.errors|
              && pauses == if delay > 0 && |recipients| > 0 then Range(|recipients| - 1) else []
    ensures forall j: nat :: connected && FirstWithoutEmail(recipients, j) ==>
              r == Failure(KeyError("email")) && pauses == if delay > 0 then Range(j) else []
  {
    if !connected {
      return Success(Tally(0, 0, [])), [];
    }
    var n := |recipients|;
    var sent := 0;
    var failed := 0;
    var errors: seq<string> := [];
    pauses := [];
    var i := 0;
    while i < n
      invariant 0 <= i <= n
      invariant HaveEmails(recipients, i)
      invariant sent == SentCount(recipients, i, today, senderName, accepts)
      invariant errors == FailedEmails(recipients, i, today, senderName, accepts)
      invariant sent + failed == i && failed == |errors|
      invariant pauses == Range(PauseCount(delay, i, n))
    {
      var recipient := recipients[i];
      if "email" !in recipient {
        assert FirstWithoutEmail(recipients, i);
        return Failure(KeyError("email")), pauses;
      }
      var ok := SendSingleEmail(recipient, subject, body, bodyHtml, today, senderName, accepts(i));
      TallyStep(recipients, i, today, senderName, accepts);
      if ok.value {
        sent := sent + 1;
      } else {
        failed := failed + 1;
        errors := errors + [recipient["email"]];
      }
      if delay > 0 && i < n - 1 {
        RangeSnoc(i);
        pauses := pauses + [i];
      }
      i := i + 1;
    }
    r := Success(Tally(sent, failed, errors));
  }
}
