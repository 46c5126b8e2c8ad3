/**
 * src/components/forms/ClientForm.tsx: the field validation (a required name, a
 * required e-mail matching `^[A-Z0-9._%+-]+@[A-Z0-9.-]+\.[A-Z]{2,}$` without regard
 * to case) and the load / replace-or-append / save cycle on the clients.
 */
module ClientForm {
  import opened Wrappers
  import opened Seqs
  import opened Store

  datatype ClientFormData = ClientFormData(
    name: string, email: string, phone: Option<string>, address: Option<string>)

  // Character classes of the e-mail pattern; the `i` flag (without `u`) folds ASCII letters only.

  predicate IsAsciiLetter(c: char) { 'A' <= c <= 'Z' || 'a' <= c <= 'z' }
  predicate IsAsciiDigit(c: char) { '0' <= c <= '9' }

  /** `[A-Z0-9._%+-]` */
  predicate IsLocalChar(c: char) {
    IsAsciiLetter(c) || IsAsciiDigit(c) || c == '.' || c == '_' || c == '%' || c == '+' || c == '-'
  }

  /** `[A-Z0-9.-]` */
  predicate IsDomainChar(c: char) {
    IsAsciiLetter(c) || IsAsciiDigit(c) || c == '.' || c == '-'
  }

  predicate AllLocal(s: string) { forall k :: 0 <= k < |s| ==> IsLocalChar(s[k]) }
  predicate AllDomain(s: string) { forall k :: 0 <= k < |s| ==> IsDomainChar(s[k]) }
  predicate AllLetters(s: string) { forall k :: 0 <= k < |s| ==> IsAsciiLetter(s[k]) }

  /** The e-mail check, computed: the part before the `@` is made of local characters; in
      the part after it, the text before the last `.` is made of domain characters and
      the text after it is two letters or more. */
  predicate IsValidEmail(s: string) {
    var at := IndexOf(s, '@');
    && at > 0
    && AllLocal(s[..at])
    && var domain := s[at + 1..];
       var dot := LastIndexOf(domain, '.');
       && dot > 0
       && AllDomain(domain[..dot])
       && |domain| - dot - 1 >= 2
       && AllLetters(domain[dot + 1..])
  }

  /** The split of `s` that the pattern describes, at the `@` index `i` and the `.` index `j`. */
  predicate IsPatternSplit(s: string, i: int, j: int) {
    && 0 < i && i + 1 < j && j + 2 < |s|
    && AllLocal(s[..i]) && s[i] == '@'
    && AllDomain(s[i + 1..j]) && s[j] == '.'
    && AllLetters(s[j + 1..])
  }

  /** The pattern read as a grammar: some split of the whole string fits it. */
  ghost predicate MatchesEmailPattern(s: string) {
    exists i, j :: IsPatternSplit(s, i, j)
  }

  lemma ValidEmailIsSplit(s: string)
    requires IsValidEmail(s)
    ensures MatchesEmailPattern(s)
  {
    var at := IndexOf(s, '@');
    var domain := s[at + 1..];
    var dot := LastIndexOf(domain, '.');
    var j := at + 1 + dot;
    assert s[at + 1..j] == domain[..dot];
    assert s[j + 1..] == domain[dot + 1..];
    assert s[j] == domain[dot];
    assert IsPatternSplit(s, at, j);
  }

  lemma LocalPartEndsAtFirstAt(s: string, i: int)
    requires 0 < i < |s| && AllLocal(s[..i]) && s[i] == '@'
    ensures IndexOf(s, '@') == i
  {
    var local := s[..i];
    assert forall k :: 0 <= k < |local| ==> local[k] != '@';
    assert '@' !in local;
    IndexOfIs(s, '@', i);
  }

  lemma TopLevelStartsAfterLastDot(domain: string, dot: int)
    requires 0 <= dot < |domain| && domain[dot] == '.' && AllLetters(domain[dot + 1..])
    ensures LastIndexOf(domain, '.') == dot
  {
    var tld := domain[dot + 1..];
    assert forall k :: 0 <= k < |tld| ==> tld[k] != '.';
    assert '.' !in tld;
    LastIndexOfIs(domain, '.', dot);
  }

  lemma SplitIsValidEmail(s: string, i: int, j: int)
    requires IsPatternSplit(s, i, j)
    ensures IsValidEmail(s)
  {
    LocalPartEndsAtFirstAt(s, i);
    var domain := s[i + 1..];
    var dot := j - i - 1;
    assert domain[dot + 1..] == s[j + 1..];
    assert domain[dot] == s[j];
    TopLevelStartsAfterLastDot(domain, dot);
    assert domain[..dot] == s[i + 1..j];
  }

  /** The computed check accepts exactly the strings the pattern matches. */
  lemma EmailCheckMatchesPattern(s: string)
    ensures IsValidEmail(s) <==> MatchesEmailPattern(s)
  {
    if IsValidEmail(s) {
      ValidEmailIsSplit(s);
    }
    if MatchesEmailPattern(s) {
      var i, j :| IsPatternSplit(s, i, j);
      SplitIsValidEmail(s, i, j);
    }
  }

  /** An accepted e-mail holds exactly one `@`. */
  lemma ValidEmailHasOneAt(s: string)
    requires IsValidEmail(s)
    ensures multiset(s)['@'] == 1
  {
    var at := IndexOf(s, '@');
    var local, domain := s[..at], s[at + 1..];
    var dot := LastIndexOf(domain, '.');
    assert forall k :: 0 <= k < |local| ==> local[k] != '@';
    forall k | 0 <= k < |domain|
      ensures domain[k] != '@'
    {
      if k < dot {
        assert IsDomainChar(domain[..dot][k]);
      } else if k > dot {
        assert IsAsciiLetter(domain[dot + 1..][k - dot - 1]);
      }
    }
    assert '@' !in local && '@' !in domain;
    assert multiset(local)['@'] == 0 && multiset(domain)['@'] == 0;
    assert s == local + [s[at]] + domain;
  }

  /** The form's validation: a non-empty name and a non-empty e-mail that passes the pattern. */
  predicate FormAccepted(form: ClientFormData) {
    form.name != "" && form.email != "" && IsValidEmail(form.email)
  }

  /** react-hook-form's validation passes exactly when the name is filled in and the
      e-mail matches the pattern; the pattern alone already rules out an empty e-mail. */
  lemma FormAcceptedIff(form: ClientFormData)
    ensures FormAccepted(form) <==> form.name != "" && MatchesEmailPattern(form.email)
  {
    EmailCheckMatchesPattern(form.email);
    if IsValidEmail(form.email) {
      assert IndexOf(form.email, '@') > 0;
    }
  }

  /** The record the handler builds: the edited id and creation time (each unless empty),
      otherwise a fresh id and the submission time, and the form's values. */
  function NewClient(form: ClientFormData, editing: Option<Client>, freshId: string, now: string): (r: Client)
    ensures editing.Some? && editing.value.id != "" ==> r.id == editing.value.id
    ensures editing.None? || editing.value.id == "" ==> r.id == freshId
    ensures editing.Some? && editing.value.createdAt != "" ==> r.createdAt == editing.value.createdAt
    ensures editing.None? || editing.value.createdAt == "" ==> r.createdAt == now
    ensures r.name == form.name && r.email == form.email && r.phone == form.phone && r.address == form.address
  {
    Client(
      id := if editing.Some? && editing.value.id != "" then editing.value.id else freshId,
      name := form.name,
      email := form.email,
      phone := form.phone,
      address := form.address,
      createdAt := if editing.Some? && editing.value.createdAt != "" then editing.value.createdAt else now)
  }

  /** The clients after a submission: appended when creating; when editing, the first
      client with the edited id is replaced, and nothing changes if there is none. */
  function ClientsAfterSubmit(clients: seq<Client>, editing: Option<Client>, saved: Client): (r: seq<Client>)
    ensures editing.None? ==> r == clients + [saved]
    ensures editing.Some? ==> |r| == |clients|
    ensures editing.Some? && FindIndex(clients, ClientIdIs(editing.value.id)) == -1 ==> r == clients
    ensures editing.Some? ==>
      var k := FindIndex(clients, ClientIdIs(editing.value.id));
      k != -1 ==> r[k] == saved && forall j :: 0 <= j < |r| && j != k ==> r[j] == clients[j]
  {
    if editing.None? then clients + [saved]
    else ReplaceFirst(clients, ClientIdIs(editing.value.id), saved)
  }

  /**
   * `onSubmitForm`: loads the data, replaces the edited client in place (or appends the
   * new one), saves the data in every case, and hands back the record it built. Projects
   * and invoices are not touched: unlike a delete, there is no cascade.
   */
  method SubmitClient(store: DataStore, form: ClientFormData, editing: Option<Client>, freshId: string, now: string)
    returns (saved: Client)
    modifies store`slot
    ensures saved == NewClient(form, editing, freshId, now)
    ensures store.slot == old(store.SavedSlot(
      store.Loaded().(clients := ClientsAfterSubmit(store.Loaded().clients, editing, saved))))
  {
    var appData := store.LoadData();
    saved := NewClient(form, editing, freshId, now);
    if editing.Some? {
      var index := FindIndex(appData.clients, ClientIdIs(editing.value.id));
      if index != -1 {
        appData := appData.(clients := appData.clients[index := saved]);
      }
    } else {
      appData := appData.(clients := appData.clients + [saved]);
    }
    store.SaveData(appData);
  }
}
