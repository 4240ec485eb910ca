/** The display derivations of the profile page: the full name, the avatar
    initials and the `||` fallback chains that turn an optional profile field
    into the string the page shows. All of them are pure expressions over the
    profile record. */
module ProfileDisplay {
  import opened Js

  /** A postal address as the directory API may send it; every part may be
      missing. */
  datatype Address = Address(
    address1: Option<string>,
    address2: Option<string>,
    city: Option<string>,
    state: Option<string>,
    zip: Option<string>)

  /** The fields of a `UserProfile` that the page reads. */
  datatype UserProfile = UserProfile(
    name: Option<string>,
    firstName: Option<string>,
    lastName: Option<string>,
    companyName: Option<string>,
    businessSince: Option<string>,
    profileImage: Option<string>,
    introduction: Option<string>,
    bio: Option<string>,
    email: Option<string>,
    workEmail: Option<string>,
    office: Option<string>,
    mobile: Option<string>,
    home: Option<string>,
    alternate: Option<string>,
    billingAddress: Option<Address>)

  // ---------------------------------------------------------------------
  // Literal defaults shown when a field is missing

  const UnknownName: string := "Unknown"
  const DefaultProfileImage: string := "/placeholder.svg?height=128&width=128"
  const DefaultIntroduction: string :=
    "I am a qualified notary signing agent since 2006 and Fidelity approved "
    + "subcontractor. I have the capability, knowledge and experience "
    + "required to execute your documents with the highest level of expertise "
    + "and care, and represent you to your clients with the utmost "
    + "professionalism, leaving the client comfortable and satisfied with "
    + "their experience. I have closed thousands of loans and real estate "
    + "transactions. I specialize in refinances, purchases, equity lines of "
    + "credit, seller transactions, construction & commercial loans, reverse "
    + "mortgages, as well as estate planning and trust documents, serving San "
    + "Francisco county, San Mateo county (1,000,000 thru Travelers Ins. Fees "
    + "are negotiated at time of service request. Name office equipped with "
    + "two HP state of the art dual tray laser printers and scanners. "
    + "Experience the difference and thank you for calling on me! Email me at "
    + "notary@signingagent.com"
  const DefaultCompanyName: string := "N/A"
  const DefaultBusinessSince: string := "01/17/2006"
  const DefaultPhone: string := "415 730-8955"
  const DefaultAddress1: string := "480 Fillmore St., #2"
  const DefaultAddress2: string := ""
  const DefaultCity: string := "San Francisco"
  const DefaultState: string := "CA"
  const DefaultZip: string := "94117"
  const DefaultWorkEmail: string := "notary@signingagent.com"

  // ---------------------------------------------------------------------
  // Fallback chains

  /** `c0 || c1 || ... || default`: the first truthy candidate, or the
      literal default when no candidate is truthy. */
  function FirstTruthy(candidates: seq<Option<string>>, default: string): (r: string)
    ensures (forall i :: 0 <= i < |candidates| ==> !Truthy(candidates[i])) ==> r == default
    ensures forall i :: 0 <= i < |candidates| ==>
      (Truthy(candidates[i]) && forall j :: 0 <= j < i ==> !Truthy(candidates[j])) ==>
      r == candidates[i].value
    ensures r == "" ==> default == ""
  {
    if candidates == [] then default
    else Or(candidates[0], FirstTruthy(candidates[1..], default))
  }

  /** `address?.<part>`: optional chaining yields `undefined` when the
      address itself is missing. */
  function Part(address: Option<Address>, pick: Address -> Option<string>): (r: Option<string>)
    ensures address.None? ==> r.None?
    ensures address.Some? ==> r == pick(address.value)
  {
    if address.Some? then pick(address.value) else None
  }

  // ---------------------------------------------------------------------
  // Full name

  /** `(firstName || "") + " " + (lastName || "")`, the string trimmed when
      `name` is falsy. */
  function JoinedParts(p: UserProfile): string {
    Or(p.firstName, "") + " " + Or(p.lastName, "")
  }

  /** A missing or empty part contributes nothing to the template, never the
      text "undefined" or "null"; the separating space is always there. */
  lemma JoinedPartsCases(p: UserProfile)
    ensures !Truthy(p.firstName) && !Truthy(p.lastName) ==> JoinedParts(p) == " "
    ensures Truthy(p.firstName) && !Truthy(p.lastName) ==> JoinedParts(p) == p.firstName.value + " "
    ensures !Truthy(p.firstName) && Truthy(p.lastName) ==> JoinedParts(p) == " " + p.lastName.value
    ensures Truthy(p.firstName) && Truthy(p.lastName) ==>
      JoinedParts(p) == p.firstName.value + " " + p.lastName.value
  {
  }

  /** `name || `${firstName || ""} ${lastName || ""}`.trim() || "Unknown"`:
      the name as sent when it is truthy, otherwise the trimmed first and
      last name, otherwise "Unknown". */
  function FullName(p: UserProfile): (r: string)
    ensures r != ""
    ensures Truthy(p.name) ==> r == p.name.value
    ensures !Truthy(p.name) ==> Trimmed(r)
  {
    if Truthy(p.name) then p.name.value else TrimmedOrUnknown(JoinedParts(p))
  }

  /** `s.trim() || "Unknown"`: the trimmed string, or "Unknown" when nothing
      but white space is left. */
  function TrimmedOrUnknown(s: string): (r: string)
    ensures r != "" && Trimmed(r)
    ensures AllWhiteSpace(s) ==> r == UnknownName
    ensures !AllWhiteSpace(s) ==> r == Trim(s)
  {
    UnknownTrimmed();
    if AllWhiteSpace(s) then UnknownName else Trim(s)
  }

  /** The fallback name has no surrounding white space. */
  lemma UnknownTrimmed()
    ensures UnknownName != "" && Trimmed(UnknownName)
  {
    assert UnknownName[0] == 'U' && UnknownName[|UnknownName| - 1] == 'n';
  }

  /** With `name` falsy and both parts present, non-empty and free of
      surrounding white space, the full name is the two parts joined by one
      space: the common case of `FullNameBothNonBlank`, worked out. */
  lemma FullNameBothParts(p: UserProfile, first: string, last: string)
    requires !Truthy(p.name) && p.firstName == Some(first) && p.lastName == Some(last)
    requires first != "" && last != "" && Trimmed(first) && Trimmed(last)
    ensures FullName(p) == first + " " + last
  {
    var joined := first + " " + last;
    assert joined[0] == first[0] && joined[|joined| - 1] == last[|last| - 1];
    TrimTrimmed(joined);
  }

  /** A space next to white space is still all white space. */
  lemma SpaceThenWhiteSpace(w: string)
    requires AllWhiteSpace(w)
    ensures AllWhiteSpace(" " + w) && AllWhiteSpace(w + " ")
  {
    assert forall i :: 1 <= i < |" " + w| ==> (" " + w)[i] == w[i - 1];
    assert forall i :: 0 <= i < |w| ==> (w + " ")[i] == w[i];
  }

  /** With `name` falsy and the last name missing, empty or blank, the full
      name is the trimmed first name, or "Unknown" when that is blank too:
      the separating space never shows. */
  lemma FullNameFirstOnly(p: UserProfile)
    requires !Truthy(p.name) && AllWhiteSpace(Or(p.lastName, ""))
    ensures FullName(p) == if AllWhiteSpace(Or(p.firstName, "")) then UnknownName else Trim(Or(p.firstName, ""))
  {
    var first := Or(p.firstName, "");
    var last := Or(p.lastName, "");
    assert JoinedParts(p) == [] + first + (" " + last);
    SpaceThenWhiteSpace(last);
    TrimSurrounded([], first, " " + last);
  }

  /** With `name` falsy and the first name missing, empty or blank, the full
      name is the trimmed last name, or "Unknown" when that is blank too. */
  lemma FullNameLastOnly(p: UserProfile)
    requires !Truthy(p.name) && AllWhiteSpace(Or(p.firstName, ""))
    ensures FullName(p) == if AllWhiteSpace(Or(p.lastName, "")) then UnknownName else Trim(Or(p.lastName, ""))
  {
    var first := Or(p.firstName, "");
    var last := Or(p.lastName, "");
    assert JoinedParts(p) == (first + " ") + last + [];
    SpaceThenWhiteSpace(first);
    TrimSurrounded(first + " ", last, []);
  }

  /** Trimming two strings joined by a space, each with a character that is
      not white space, trims only the outer ends. */
  lemma {:induction false} TrimAroundSpace(a: string, b: string)
    requires !AllWhiteSpace(a) && !AllWhiteSpace(b)
    ensures Trim(a + (" " + b)) == TrimStart(a) + " " + TrimEnd(b)
  {
    TrimStartAppend(a, " " + b);
    var head := TrimStart(a) + " ";
    assert TrimStart(a + (" " + b)) == head + b;
    TrimEndPrepend(head, b);
  }

  /** With `name` falsy and both parts holding a character that is not white
      space, the full name is the first name without its leading white space,
      one space, and the last name without its trailing white space: white
      space inside, such as a trailing space after the first name, is kept. */
  lemma FullNameBothNonBlank(p: UserProfile)
    requires !Truthy(p.name)
    requires !AllWhiteSpace(Or(p.firstName, "")) && !AllWhiteSpace(Or(p.lastName, ""))
    ensures FullName(p) == TrimStart(Or(p.firstName, "")) + " " + TrimEnd(Or(p.lastName, ""))
  {
    var first := Or(p.firstName, "");
    var last := Or(p.lastName, "");
    var joined := JoinedParts(p);
    assert joined == first + (" " + last);
    TrimAroundSpace(first, last);
    assert Trim(joined) != [];
  }

  /** With `name` falsy and both parts missing, empty or blank, the full
      name is "Unknown". */
  lemma FullNameUnknown(p: UserProfile)
    requires !Truthy(p.name)
    requires AllWhiteSpace(Or(p.firstName, "")) && AllWhiteSpace(Or(p.lastName, ""))
    ensures FullName(p) == UnknownName
  {
    TrimSurrounded(Or(p.firstName, ""), " ", Or(p.lastName, ""));
  }

  // ---------------------------------------------------------------------
  // Initials

  /** `n[0]`: the first character of `n`, `undefined` when `n` is empty. */
  function At0(n: string): Option<char> {
    if n == "" then None else Some(n[0])
  }

  /** `pieces.map((n) => n[0])`. */
  function MapAt0(pieces: seq<string>): (r: seq<Option<char>>)
    ensures |r| == |pieces|
  {
    if pieces == [] then [] else [At0(pieces[0])] + MapAt0(pieces[1..])
  }

  /** `values.join("")`, where `undefined` renders as the empty string. */
  function JoinRendered(values: seq<Option<char>>): (s: string)
    ensures |s| <= |values|
    ensures (forall i :: 0 <= i < |values| ==> values[i].None?) ==> s == ""
    ensures (forall i :: 0 <= i < |values| ==> values[i].Some?) ==> |s| == |values|
    ensures (forall i :: 0 <= i < |values| ==> values[i].Some?) ==>
      forall i :: 0 <= i < |values| ==> s[i] == values[i].value
  {
    if values == [] then ""
    else
      var rest := JoinRendered(values[1..]);
      assert forall i :: 1 <= i < |values| ==> values[1..][i - 1] == values[i];
      (if values[0].Some? then [values[0].value] else "") + rest
  }

  /** `fullName.split(" ").map((n) => n[0]).join("")`: the avatar fallback.
      It is the word starts of the name. */
  function Initials(fullName: string): (r: string)
    ensures r == WordStarts(fullName, true)
  {
    SplitWordStarts(fullName);
    JoinRendered(MapAt0(Split(fullName, ' ')))
  }

  /** The non-empty pieces of a split, in order. */
  function NonEmptyPieces(pieces: seq<string>): (r: seq<string>)
    ensures |r| <= |pieces|
    ensures forall i :: 0 <= i < |r| ==> r[i] != ""
  {
    if pieces == [] then []
    else (if pieces[0] != "" then [pieces[0]] else []) + NonEmptyPieces(pieces[1..])
  }

  /** An independent description of initials: the characters of `s` that are
      not a space and stand at the start of `s` or right after a space. */
  function WordStarts(s: string, afterSpace: bool): string {
    if s == [] then []
    else (if s[0] != ' ' && afterSpace then [s[0]] else []) + WordStarts(s[1..], s[0] == ' ')
  }

  /** The initials hold exactly one character per non-empty piece of the
      name, the first character of that piece, in order; empty pieces from
      repeated spaces contribute nothing. */
  lemma {:induction false} InitialsPerPiece(pieces: seq<string>)
    ensures var r := JoinRendered(MapAt0(pieces));
      && |r| == |NonEmptyPieces(pieces)|
      && forall k :: 0 <= k < |r| ==> r[k] == NonEmptyPieces(pieces)[k][0]
  {
    if pieces != [] {
      InitialsPerPiece(pieces[1..]);
      assert MapAt0(pieces)[1..] == MapAt0(pieces[1..]);
    }
  }

  /** Splitting on spaces and taking first characters picks exactly the
      characters that start a word. */
  lemma {:induction false} SplitWordStarts(s: string)
    ensures JoinRendered(MapAt0(Split(s, ' '))) == WordStarts(s, true)
    ensures JoinRendered(MapAt0(Split(s, ' ')[1..])) == WordStarts(s, false)
  {
    if s != [] {
      var rest := Split(s[1..], ' ');
      SplitWordStarts(s[1..]);
      var pieces := Split(s, ' ');
      if s[0] == ' ' {
        assert pieces == [""] + rest;
        assert pieces[1..] == rest;
        assert MapAt0(pieces) == [None] + MapAt0(rest);
      } else {
        var first := [s[0]] + rest[0];
        assert pieces == [first] + rest[1..];
        assert pieces[1..] == rest[1..];
        assert MapAt0(pieces) == [Some(s[0])] + MapAt0(rest[1..]);
      }
    }
  }

  /** Word starts are characters of `s` other than a space, at most one per
      character of `s`. */
  lemma {:induction false} WordStartsShape(s: string, afterSpace: bool)
    ensures |WordStarts(s, afterSpace)| <= |s|
    ensures forall i :: 0 <= i < |WordStarts(s, afterSpace)| ==> WordStarts(s, afterSpace)[i] != ' '
  {
    if s != [] {
      WordStartsShape(s[1..], s[0] == ' ');
    }
  }

  /** The word starts of `s` are empty exactly when `s` is all spaces. */
  lemma {:induction false} WordStartsEmpty(s: string)
    ensures WordStarts(s, true) == [] <==> forall i :: 0 <= i < |s| ==> s[i] == ' '
  {
    if s != [] {
      WordStartsEmpty(s[1..]);
      if s[0] == ' ' {
        assert forall i :: 0 <= i < |s[1..]| ==> s[1..][i] == s[i + 1];
      }
    }
  }

  /** The initials are the word starts of the name: no spaces, at most one
      character per character of the name, and empty exactly when the name
      is all spaces. */
  lemma InitialsShape(s: string)
    ensures Initials(s) == WordStarts(s, true)
    ensures |Initials(s)| <= |s|
    ensures forall i :: 0 <= i < |Initials(s)| ==> Initials(s)[i] != ' '
    ensures Initials(s) == "" <==> forall i :: 0 <= i < |s| ==> s[i] == ' '
  {
    SplitWordStarts(s);
    WordStartsShape(s, true);
    WordStartsEmpty(s);
  }

  // ---------------------------------------------------------------------
  // The loaded view

  /** One row of the phone table: its label and the number shown. */
  datatype PhoneRow = PhoneRow(kind: string, number: string)

  /** The phone table: the rows Office, Mobile, Home and Alternate in that
      order, each showing its own field or the shared default number. */
  function PhoneRows(p: UserProfile): (rows: seq<PhoneRow>)
    ensures |rows| == 4
    ensures rows[0].kind == "Office" && rows[1].kind == "Mobile"
    ensures rows[2].kind == "Home" && rows[3].kind == "Alternate"
    ensures forall i :: 0 <= i < 4 ==> rows[i].number != ""
    ensures forall i :: 0 <= i < 4 ==>
      var field := [p.office, p.mobile, p.home, p.alternate][i];
      rows[i].number == if Truthy(field) then field.value else DefaultPhone
  {
    [ PhoneRow("Office", FirstTruthy([p.office], DefaultPhone)),
      PhoneRow("Mobile", FirstTruthy([p.mobile], DefaultPhone)),
      PhoneRow("Home", FirstTruthy([p.home], DefaultPhone)),
      PhoneRow("Alternate", FirstTruthy([p.alternate], DefaultPhone)) ]
  }

  /** The billing block. */
  datatype BillingView = BillingView(
    address1: string,
    address2: string,
    city: string,
    state: string,
    zip: string)

  /** `billingAddress?.<part> || default` for each part: a part the address
      holds and that is truthy is shown as sent, otherwise its default. A
      missing address shows every default; the second address line defaults
      to "" and is the one displayed field that can be empty. */
  function RenderBilling(address: Option<Address>): (v: BillingView)
    ensures v.address1 != "" && v.city != "" && v.state != "" && v.zip != ""
    ensures v.address2 == "" <==> address.None? || !Truthy(address.value.address2)
    ensures address.None? ==> v == BillingView(DefaultAddress1, "", DefaultCity, DefaultState, DefaultZip)
    ensures address.Some? && Truthy(address.value.address1) ==> v.address1 == address.value.address1.value
    ensures address.Some? && Truthy(address.value.address2) ==> v.address2 == address.value.address2.value
    ensures address.Some? && Truthy(address.value.city) ==> v.city == address.value.city.value
    ensures address.Some? && Truthy(address.value.state) ==> v.state == address.value.state.value
    ensures address.Some? && Truthy(address.value.zip) ==> v.zip == address.value.zip.value
    ensures address.Some? && !Truthy(address.value.address1) ==> v.address1 == DefaultAddress1
    ensures address.Some? && !Truthy(address.value.city) ==> v.city == DefaultCity
    ensures address.Some? && !Truthy(address.value.state) ==> v.state == DefaultState
    ensures address.Some? && !Truthy(address.value.zip) ==> v.zip == DefaultZip
  {
    BillingView(
      FirstTruthy([Part(address, (a: Address) => a.address1)], DefaultAddress1),
      FirstTruthy([Part(address, (a: Address) => a.address2)], DefaultAddress2),
      FirstTruthy([Part(address, (a: Address) => a.city)], DefaultCity),
      FirstTruthy([Part(address, (a: Address) => a.state)], DefaultState),
      FirstTruthy([Part(address, (a: Address) => a.zip)], DefaultZip))
  }

  /** `introduction || bio || <default paragraph>`. */
  function Introduction(p: UserProfile): (r: string)
    ensures Truthy(p.introduction) ==> r == p.introduction.value
    ensures !Truthy(p.introduction) && Truthy(p.bio) ==> r == p.bio.value
    ensures !Truthy(p.introduction) && !Truthy(p.bio) ==> r == DefaultIntroduction
  {
    var candidates := [p.introduction, p.bio];
    assert candidates[1..] == [p.bio];
    assert FirstTruthy(candidates, DefaultIntroduction)
        == Or(p.introduction, FirstTruthy([p.bio], DefaultIntroduction));
    FirstTruthy(candidates, DefaultIntroduction)
  }

  /** `workEmail || email || "notary@signingagent.com"`. */
  function WorkEmail(p: UserProfile): (r: string)
    ensures r != ""
    ensures Truthy(p.workEmail) ==> r == p.workEmail.value
    ensures !Truthy(p.workEmail) && Truthy(p.email) ==> r == p.email.value
    ensures !Truthy(p.workEmail) && !Truthy(p.email) ==> r == DefaultWorkEmail
  {
    var candidates := [p.workEmail, p.email];
    assert candidates[1..] == [p.email];
    assert FirstTruthy(candidates, DefaultWorkEmail)
        == Or(p.workEmail, FirstTruthy([p.email], DefaultWorkEmail));
    FirstTruthy(candidates, DefaultWorkEmail)
  }

  /** Every string the loaded page derives from the profile. */
  datatype ProfileView = ProfileView(
    fullName: string,
    initials: string,
    avatarImage: string,
    introduction: string,
    companyName: string,
    businessSince: string,
    phones: seq<PhoneRow>,
    billing: BillingView,
    workEmail: string)

  /** The derived strings of the loaded page. The full name is never empty
      and the initials are its word starts; every field whose default is
      not empty is never empty, a truthy field is shown as sent and a falsy
      one as its default. */
  function Render(p: UserProfile): (v: ProfileView)
    ensures v.fullName == FullName(p) && v.fullName != ""
    ensures Truthy(p.name) ==> v.fullName == p.name.value
    ensures v.initials == Initials(v.fullName)
    ensures v.initials == WordStarts(v.fullName, true) && |v.initials| <= |v.fullName|
    ensures v.avatarImage != "" && v.companyName != "" && v.businessSince != ""
    ensures Truthy(p.profileImage) ==> v.avatarImage == p.profileImage.value
    ensures !Truthy(p.profileImage) ==> v.avatarImage == DefaultProfileImage
    ensures Truthy(p.companyName) ==> v.companyName == p.companyName.value
    ensures !Truthy(p.companyName) ==> v.companyName == DefaultCompanyName
    ensures Truthy(p.businessSince) ==> v.businessSince == p.businessSince.value
    ensures !Truthy(p.businessSince) ==> v.businessSince == DefaultBusinessSince
    ensures v.introduction == Introduction(p) && v.workEmail == WorkEmail(p)
    ensures v.phones == PhoneRows(p) && v.billing == RenderBilling(p.billingAddress)
  {
    var fullName := FullName(p);
    InitialsShape(fullName);
    ProfileView(
      fullName,
      Initials(fullName),
      FirstTruthy([p.profileImage], DefaultProfileImage),
      Introduction(p),
      FirstTruthy([p.companyName], DefaultCompanyName),
      FirstTruthy([p.businessSince], DefaultBusinessSince),
      PhoneRows(p),
      RenderBilling(p.billingAddress),
      WorkEmail(p))
  }

  // ---------------------------------------------------------------------
  // Worked examples

  /** A word without spaces contributes only its first character. */
  lemma {:induction false} WordStartsWord(w: string, rest: string, afterSpace: bool)
    requires w != [] && ' ' !in w
    ensures WordStarts(w + rest, afterSpace) == (if afterSpace then [w[0]] else []) + WordStarts(rest, false)
    decreases |w|
  {
    assert (w + rest)[0] == w[0] && (w + rest)[1..] == w[1..] + rest;
    if |w| > 1 {
      assert ' ' !in w[1..] by {
        forall i | 0 <= i < |w[1..]| ensures w[1..][i] != ' ' {
          assert w[1..][i] == w[i + 1];
        }
      }
      WordStartsWord(w[1..], rest, false);
    } else {
      assert w[1..] + rest == rest;
    }
  }

  /** The fallback name "Unknown" gives the initial "U". */
  lemma InitialsOfUnknown()
    ensures Initials(UnknownName) == "U"
  {
    WordStartsWord(UnknownName, "", true);
    assert UnknownName + "" == UnknownName;
  }

  /** A word followed by a space contributes its first character, and the
      next word starts right after the space. */
  lemma WordThenSpace(w: string, rest: string)
    requires w != [] && ' ' !in w
    ensures WordStarts(w + (" " + rest), true) == [w[0]] + WordStarts(rest, true)
  {
    WordStartsWord(w, " " + rest, true);
    assert (" " + rest)[1..] == rest;
  }

  /** One initial per word, in order: "Jane Q Public" gives "JQP". */
  lemma InitialsOfThreeWords()
    ensures Initials("Jane" + (" " + ("Q" + (" " + "Public")))) == "JQP"
  {
    var last := "Public";
    var rest := "Q" + (" " + last);
    WordThenSpace("Jane", rest);
    WordThenSpace("Q", last);
    WordStartsWord(last, "", true);
    assert last + "" == last;
  }

  /** Repeated and trailing spaces contribute nothing: "Jane  Doe " gives
      "JD". */
  lemma InitialsSkipEmptyPieces()
    ensures Initials("Jane" + (" " + (" " + ("Doe" + " ")))) == "JD"
  {
    var rest := " " + ("Doe" + (" " + ""));
    assert "Doe" + " " == "Doe" + (" " + "");
    WordThenSpace("Jane", rest);
    assert rest[1..] == "Doe" + (" " + "");
    WordThenSpace("Doe", "");
  }

  /** A profile with no field set renders as "Unknown" with initial "U". */
  lemma EmptyProfileView()
    ensures var p := UserProfile(None, None, None, None, None, None, None, None,
                                 None, None, None, None, None, None, None);
      var v := Render(p);
      && v.fullName == UnknownName && v.initials == "U"
      && v.workEmail == DefaultWorkEmail && v.companyName == DefaultCompanyName
      && v.introduction == DefaultIntroduction
  {
    var p := UserProfile(None, None, None, None, None, None, None, None,
                         None, None, None, None, None, None, None);
    FullNameUnknown(p);
    InitialsOfUnknown();
  }

  /** A `name` that is a single space is shown as it is, and yields no
      initials at all. */
  lemma BlankNameKept()
    ensures var p := UserProfile(Some(" "), Some("Jane"), Some("Doe"), None, None, None, None,
                                 None, None, None, None, None, None, None, None);
      Render(p).fullName == " " && Render(p).initials == ""
  {
    InitialsShape(" ");
  }
}
