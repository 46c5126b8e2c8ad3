/**
 * src/app/page.tsx, the landing page: the profile form, which refuses a name or a
 * profession that is blank after `trim()`, and the import of a JSON backup, which
 * checks the document's shape and writes the browser slot only when the check passes.
 */
module Landing {
  import opened Wrappers
  import opened Browser
  import opened Types
  import Store

  /** The characters `String.prototype.trim` removes: the ECMAScript white space
      (tab, vertical tab, form feed, space, no-break space, the byte order mark and the
      other space separators of Unicode) and the line terminators. */
  predicate IsJsWhitespace(c: char) {
    || c == '\t' || c == '\U{000B}' || c == '\U{000C}' || c == ' ' || c == '\U{00A0}' || c == '\U{FEFF}'
    || c == '\U{1680}' || ('\U{2000}' <= c <= '\U{200A}') || c == '\U{202F}' || c == '\U{205F}' || c == '\U{3000}'
    || c == '\n' || c == '\r' || c == '\U{2028}' || c == '\U{2029}'
  }

  predicate AllWhitespace(s: string) {
    forall k :: 0 <= k < |s| ==> IsJsWhitespace(s[k])
  }

  /** The length of the run of white space that starts `s`. */
  function LeadingSpace(s: string): (n: nat)
    ensures n <= |s|
    decreases |s|
  {
    if s != [] && IsJsWhitespace(s[0]) then 1 + LeadingSpace(s[1..]) else 0
  }

  /** The length of the run of white space that ends `s`. */
  function TrailingSpace(s: string): (n: nat)
    ensures n <= |s|
    decreases |s|
  {
    if s != [] && IsJsWhitespace(s[|s| - 1]) then 1 + TrailingSpace(s[..|s| - 1]) else 0
  }

  lemma {:induction false} LeadingSpaceIsRun(s: string)
    ensures forall k :: 0 <= k < LeadingSpace(s) ==> IsJsWhitespace(s[k])
    ensures LeadingSpace(s) < |s| ==> !IsJsWhitespace(s[LeadingSpace(s)])
    decreases |s|
  {
    if s != [] && IsJsWhitespace(s[0]) {
      var rest := s[1..];
      LeadingSpaceIsRun(rest);
      assert forall k :: 0 <= k < |rest| ==> rest[k] == s[k + 1];
    }
  }

  lemma {:induction false} TrailingSpaceIsRun(s: string)
    ensures forall k :: |s| - TrailingSpace(s) <= k < |s| ==> IsJsWhitespace(s[k])
    ensures TrailingSpace(s) < |s| ==> !IsJsWhitespace(s[|s| - TrailingSpace(s) - 1])
    decreases |s|
  {
    if s != [] && IsJsWhitespace(s[|s| - 1]) {
      var init := s[..|s| - 1];
      TrailingSpaceIsRun(init);
      assert forall k :: 0 <= k < |init| ==> init[k] == s[k];
    }
  }

  /** `trim()`: `s` without its leading and trailing white space. */
  function Trim(s: string): (r: string)
    ensures |r| <= |s|
  {
    var rest := s[LeadingSpace(s)..];
    rest[..|rest| - TrailingSpace(rest)]
  }

  /** What `trim()` removes is white space from both ends, and it stops at the first and
      the last character that is not. */
  lemma TrimIsInnerSlice(s: string)
    ensures Trim(s) != [] ==> !IsJsWhitespace(Trim(s)[0]) && !IsJsWhitespace(Trim(s)[|Trim(s)| - 1])
    ensures exists i ::
      0 <= i <= |s| - |Trim(s)| && Trim(s) == s[i..i + |Trim(s)|]
      && AllWhitespace(s[..i]) && AllWhitespace(s[i + |Trim(s)|..])
  {
    var i := LeadingSpace(s);
    var rest := s[i..];
    var j := TrailingSpace(rest);
    LeadingSpaceIsRun(s);
    TrailingSpaceIsRun(rest);
    var r := Trim(s);
    assert |r| == |rest| - j && i + |r| == |s| - j;
    assert r == s[i..i + |r|];
    var before, after := s[..i], s[i + |r|..];
    forall k | 0 <= k < |before| ensures IsJsWhitespace(before[k]) {
      assert before[k] == s[k];
    }
    forall k | 0 <= k < |after| ensures IsJsWhitespace(after[k]) {
      assert after[k] == rest[|rest| - j + k];
    }
    assert r != [] ==> r[0] == s[i] && r[|r| - 1] == rest[|rest| - j - 1];
  }

  /** A text trims to nothing exactly when it is all white space. */
  lemma TrimEmptyIffBlank(s: string)
    ensures Trim(s) == "" <==> AllWhitespace(s)
  {
    var i := LeadingSpace(s);
    LeadingSpaceIsRun(s);
    if i < |s| {
      var rest := s[i..];
      TrailingSpaceIsRun(rest);
      assert rest[0] == s[i];
    }
  }

  /** The check of `handleNewProfile`: both fields hold something besides white space. */
  predicate ProfileAccepted(name: string, profession: string) {
    Trim(name) != "" && Trim(profession) != ""
  }

  /** The profile check refuses exactly a blank name or a blank profession. */
  lemma ProfileRefusedIffBlank(name: string, profession: string)
    ensures !ProfileAccepted(name, profession) <==> AllWhitespace(name) || AllWhitespace(profession)
  {
    TrimEmptyIffBlank(name);
    TrimEmptyIffBlank(profession);
  }

  /** The shape check of `handleImport`: a business name and a profession that are not
      empty, and the three collections present. */
  predicate ImportShapeOk<C, P, I>(doc: Document<C, P, I, BusinessInfo>) {
    && doc.businessInfo.Some? && doc.businessInfo.value.name != "" && doc.businessInfo.value.profession != ""
    && doc.clients.Some? && doc.projects.Some? && doc.invoices.Some?
  }

  /** Whatever this check lets through also passes the check of `importData`. */
  lemma ImportCheckIsStricter<C, P, I>(doc: Document<C, P, I, BusinessInfo>)
    ensures ImportShapeOk(doc) ==> Store.HasTopLevelKeys(doc)
  {
  }

  /** The converse fails: `importData` accepts a backup whose business name is empty. */
  lemma StoreCheckIsLooser()
    ensures var doc: Document<Client, Project, Invoice, BusinessInfo> :=
              Document(Some([]), Some([]), Some([]), Some(BusinessInfo("", "Développeur Web", "")));
            Store.HasTopLevelKeys(doc) && !ImportShapeOk(doc)
  {
  }

  const FieldsMissing: string := "Veuillez remplir tous les champs"
  const NoFileSelected: string := "Aucun fichier sélectionné"
  const InvalidFormat: string := "Format de fichier invalide"
  const DashboardRoute: string := "/dashboard"

  /** An accepted profile, as handed to `updateProfile`. */
  datatype ProfileUpdate = ProfileUpdate(name: string, profession: string)

  /**
   * The state of the landing page: the two form fields, the loading flag, the error
   * message (empty when there is none), where the router was sent, the calls made to
   * `updateProfile`, and the browser slot `zeipilote-data`, which holds the imported
   * document as it was parsed.
   */
  class HomePage {
    var name: string
    var profession: string
    var isLoading: bool
    var error: string
    var route: Option<string>
    var profileUpdates: seq<ProfileUpdate>
    var slot: Slot<Document<Client, Project, Invoice, BusinessInfo>>

    constructor (slot: Slot<Document<Client, Project, Invoice, BusinessInfo>>)
      ensures name == "" && profession == "" && !isLoading && error == ""
      ensures route.None? && profileUpdates == [] && this.slot == slot
    {
      name := "";
      profession := "";
      isLoading := false;
      error := "";
      route := None;
      profileUpdates := [];
      this.slot := slot;
    }

    /**
     * `handleNewProfile`. A blank field sets the message and calls nothing. Otherwise the
     * fields go to `updateProfile` as typed, untrimmed; `updateFailure` is the message of
     * the error that call may throw, and without one the page moves to the dashboard.
     */
    method HandleNewProfile(updateFailure: Option<string>)
      modifies this`isLoading, this`error, this`route, this`profileUpdates
      ensures !isLoading
      ensures !ProfileAccepted(name, profession) ==>
        error == FieldsMissing && profileUpdates == old(profileUpdates) && route == old(route)
      ensures ProfileAccepted(name, profession) ==>
        profileUpdates == old(profileUpdates) + [ProfileUpdate(name, profession)]
      ensures ProfileAccepted(name, profession) && updateFailure.Some? ==>
        error == updateFailure.value && route == old(route)
      ensures ProfileAccepted(name, profession) && updateFailure.None? ==>
        error == "" && route == Some(DashboardRoute)
    {
      var accepted := ProfileAccepted(name, profession);
      isLoading := true;
      error := "";
      if !accepted {
        error := FieldsMissing;
      } else {
        profileUpdates := profileUpdates + [ProfileUpdate(name, profession)];
        if updateFailure.Some? {
          error := updateFailure.value;
        } else {
          route := Some(DashboardRoute);
        }
      }
      isLoading := false;
    }

    /**
     * `handleImport`. `file` is the first selected file, parsed: None when no file was
     * chosen. A missing file, a parse error or a failed shape check sets the matching
     * message and leaves the slot as it was; an accepted document is stored exactly as
     * parsed and the page moves to the dashboard.
     */
    method HandleImport(file: Option<Parse<Document<Client, Project, Invoice, BusinessInfo>>>)
      modifies this`isLoading, this`error, this`route, this`slot
      ensures !isLoading
      ensures file.None? ==> error == NoFileSelected
      ensures file.Some? && file.value.Malformed? ==> error == file.value.message
      ensures file.Some? && file.value.Parsed? && !ImportShapeOk(file.value.value) ==> error == InvalidFormat
      ensures file.Some? && file.value.Parsed? && ImportShapeOk(file.value.value) ==>
        slot == Stored(file.value.value) && route == Some(DashboardRoute) && error == ""
      ensures !(file.Some? && file.value.Parsed? && ImportShapeOk(file.value.value)) ==>
        slot == old(slot) && route == old(route)
    {
      isLoading := true;
      error := "";
      match file {
        case None =>
          error := NoFileSelected;
        case Some(Malformed(message)) =>
          error := message;
        case Some(Parsed(jsonData)) =>
          if !ImportShapeOk(jsonData) {
            error := InvalidFormat;
          } else {
            slot := Stored(jsonData);
            route := Some(DashboardRoute);
          }
      }
      isLoading := false;
    }
  }
}
