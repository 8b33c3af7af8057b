/** The request models of the Docs API (models.py): the choice enumerations
    with their wire values and defaults, and the field validators that check
    and normalise titles, e-mail addresses and AI input text. A validator that
    raises `ValueError` returns `Err` with the same message. */
module Models {
  import opened Wrappers
  import opened Strings

  // ---------------------------------------------------------------------------
  // Choices

  /** `RoleChoice`. */
  datatype Role = Reader | Editor | Administrator | Owner

  /** `LinkReachChoice`. */
  datatype LinkReach = Restricted | Authenticated | Public

  /** `LinkRoleChoice`. */
  datatype LinkRole = LinkReader | LinkEditor

  /** `MovePositionChoice`. */
  datatype MovePosition = FirstChild | LastChild | Left | Right

  const RoleValues: seq<string> := ["reader", "editor", "administrator", "owner"]
  const LinkReachValues: seq<string> := ["restricted", "authenticated", "public"]
  const LinkRoleValues: seq<string> := ["reader", "editor"]
  const MovePositionValues: seq<string> := ["first-child", "last-child", "left", "right"]

  function RoleValue(r: Role): (v: string)
    ensures v in RoleValues
  {
    match r
    case Reader => "reader"
    case Editor => "editor"
    case Administrator => "administrator"
    case Owner => "owner"
  }

  /** Reading a role from its wire value, as pydantic does for the enum. */
  function ParseRole(s: string): (r: Option<Role>)
    ensures r.Some? <==> s in RoleValues
    ensures r.Some? ==> RoleValue(r.value) == s
  {
    if s == "reader" then Some(Reader)
    else if s == "editor" then Some(Editor)
    else if s == "administrator" then Some(Administrator)
    else if s == "owner" then Some(Owner)
    else None
  }

  /** Each role has its own wire value, so reading it back gives the role. */
  lemma RoleRoundTrip(r: Role)
    ensures ParseRole(RoleValue(r)) == Some(r)
  {
  }

  function LinkReachValue(r: LinkReach): (v: string)
    ensures v in LinkReachValues
  {
    match r
    case Restricted => "restricted"
    case Authenticated => "authenticated"
    case Public => "public"
  }

  function ParseLinkReach(s: string): (r: Option<LinkReach>)
    ensures r.Some? <==> s in LinkReachValues
    ensures r.Some? ==> LinkReachValue(r.value) == s
  {
    if s == "restricted" then Some(Restricted)
    else if s == "authenticated" then Some(Authenticated)
    else if s == "public" then Some(Public)
    else None
  }

  lemma LinkReachRoundTrip(r: LinkReach)
    ensures ParseLinkReach(LinkReachValue(r)) == Some(r)
  {
  }

  function LinkRoleValue(r: LinkRole): (v: string)
    ensures v in LinkRoleValues
  {
    match r
    case LinkReader => "reader"
    case LinkEditor => "editor"
  }

  function ParseLinkRole(s: string): (r: Option<LinkRole>)
    ensures r.Some? <==> s in LinkRoleValues
    ensures r.Some? ==> LinkRoleValue(r.value) == s
  {
    if s == "reader" then Some(LinkReader)
    else if s == "editor" then Some(LinkEditor)
    else None
  }

  lemma LinkRoleRoundTrip(r: LinkRole)
    ensures ParseLinkRole(LinkRoleValue(r)) == Some(r)
  {
  }

  function MovePositionValue(p: MovePosition): (v: string)
    ensures v in MovePositionValues
  {
    match p
    case FirstChild => "first-child"
    case LastChild => "last-child"
    case Left => "left"
    case Right => "right"
  }

  function ParseMovePosition(s: string): (r: Option<MovePosition>)
    ensures r.Some? <==> s in MovePositionValues
    ensures r.Some? ==> MovePositionValue(r.value) == s
  {
    if s == "first-child" then Some(FirstChild)
    else if s == "last-child" then Some(LastChild)
    else if s == "left" then Some(Left)
    else if s == "right" then Some(Right)
    else None
  }

  lemma MovePositionRoundTrip(p: MovePosition)
    ensures ParseMovePosition(MovePositionValue(p)) == Some(p)
  {
  }

  /** Roles and move positions have four distinct values each, link reach
      three and link roles two. */
  lemma ChoiceDomains()
    ensures |RoleValues| == 4 && |MovePositionValues| == 4
    ensures |LinkReachValues| == 3 && |LinkRoleValues| == 2
    ensures forall i, j :: 0 <= i < j < 4 ==> RoleValues[i] != RoleValues[j]
    ensures forall i, j :: 0 <= i < j < 4 ==> MovePositionValues[i] != MovePositionValues[j]
    ensures forall i, j :: 0 <= i < j < 3 ==> LinkReachValues[i] != LinkReachValues[j]
    ensures LinkRoleValues[0] != LinkRoleValues[1]
  {
  }

  // ---------------------------------------------------------------------------
  // Defaulted choice fields

  /** A link-reach field (`BaseDocument.link_reach`): absent means
      `restricted`; a value must be one of the choices. */
  function LinkReachField(raw: Option<string>): (r: Option<LinkReach>)
    ensures raw.None? ==> r == Some(Restricted)
    ensures raw.Some? ==> (r.Some? <==> raw.value in LinkReachValues)
    ensures raw.Some? && r.Some? ==> LinkReachValue(r.value) == raw.value
  {
    if raw.None? then Some(Restricted) else ParseLinkReach(raw.value)
  }

  /** A link-role field (`BaseDocument.link_role`): absent means `reader`. */
  function LinkRoleField(raw: Option<string>): (r: Option<LinkRole>)
    ensures raw.None? ==> r == Some(LinkReader)
    ensures raw.Some? ==> (r.Some? <==> raw.value in LinkRoleValues)
    ensures raw.Some? && r.Some? ==> LinkRoleValue(r.value) == raw.value
  {
    if raw.None? then Some(LinkReader) else ParseLinkRole(raw.value)
  }

  /** `DocumentMoveRequest.position`: absent means `last-child`. */
  function MovePositionField(raw: Option<string>): (r: Option<MovePosition>)
    ensures raw.None? ==> r == Some(LastChild)
    ensures raw.Some? ==> (r.Some? <==> raw.value in MovePositionValues)
    ensures raw.Some? && r.Some? ==> MovePositionValue(r.value) == raw.value
  {
    if raw.None? then Some(LastChild) else ParseMovePosition(raw.value)
  }

  // ---------------------------------------------------------------------------
  // Field validators

  const EmptyTitle := "Title cannot be empty"
  const InvalidEmail := "Invalid email address"
  const EmptyText := "Text cannot be empty"

  /** `DocumentCreateRequest.validate_title`: a blank title is refused; any
      other title is kept without its surrounding whitespace. */
  function ValidateCreateTitle(v: string): (r: Result<string, string>)
    ensures r.Err? <==> AllSpace(v)
    ensures r.Err? ==> r.error == EmptyTitle
    ensures r.Ok? ==> r.value == Strip(v) && r.value != [] && Trimmed(r.value)
  {
    StripEmpty(v);
    if Strip(v) == [] then Err(EmptyTitle) else Ok(Strip(v))
  }

  /** An accepted title passes the validator again unchanged. */
  lemma CreateTitleIdempotent(v: string)
    requires ValidateCreateTitle(v).Ok?
    ensures ValidateCreateTitle(ValidateCreateTitle(v).value) == ValidateCreateTitle(v)
  {
    StripTrimmed(Strip(v));
  }

  /** `DocumentUpdateRequest.validate_title`: no title stays absent; a blank
      title, the empty one included, is refused; any other title is kept
      stripped. */
  function ValidateUpdateTitle(v: Option<string>): (r: Result<Option<string>, string>)
    ensures r.Err? <==> v.Some? && AllSpace(v.value)
    ensures r.Err? ==> r.error == EmptyTitle
    ensures r.Ok? && v.None? ==> r.value == None
    ensures r.Ok? && v.Some? ==> r.value == Some(Strip(v.value)) && Strip(v.value) != []
  {
    if v.None? then Ok(None)
    else
      StripEmpty(v.value);
      // The empty title is blank, so the `if v` of the source only ever
      // sees a non-empty title here.
      if Strip(v.value) == [] then Err(EmptyTitle) else Ok(Some(Strip(v.value)))
  }

  lemma UpdateTitleIdempotent(v: Option<string>)
    requires ValidateUpdateTitle(v).Ok?
    ensures ValidateUpdateTitle(ValidateUpdateTitle(v).value) == ValidateUpdateTitle(v)
  {
    if v.Some? {
      StripTrimmed(Strip(v.value));
    }
  }

  /** `DocumentAccessCreateRequest.validate_user_email`: an absent or empty
      address is accepted; any other must contain `@`; the value is never
      changed. */
  function ValidateUserEmail(v: Option<string>): (r: Result<Option<string>, string>)
    ensures r.Err? <==> Truthy(v) && '@' !in v.value
    ensures r.Err? ==> r.error == InvalidEmail
    ensures r.Ok? ==> r.value == v
  {
    if Truthy(v) && '@' !in v.value then Err(InvalidEmail) else Ok(v)
  }

  /** `InvitationCreateRequest.validate_email`: the address must contain `@`
      as given; it is stored stripped and lower-cased. */
  function ValidateInvitationEmail(v: string): (r: Result<string, string>)
    ensures r.Err? <==> '@' !in v
    ensures r.Err? ==> r.error == InvalidEmail
    ensures r.Ok? ==> r.value == Lower(Strip(v))
    ensures r.Ok? ==> '@' in r.value && Trimmed(r.value) && |r.value| <= |v|
    ensures r.Ok? ==> forall i :: 0 <= i < |r.value| ==> !('A' <= r.value[i] <= 'Z')
  {
    if '@' !in v then Err(InvalidEmail)
    else
      StripKeeps(v, '@');
      LowerKeeps(Strip(v), '@');
      LowerTrimmed(Strip(v));
      Ok(Lower(Strip(v)))
  }

  /** Checking `@` before stripping loses nothing: `@` is not whitespace, so
      the stripped address has it exactly when the raw one does. */
  lemma InvitationEmailCheckOrder(v: string)
    ensures '@' in v <==> '@' in Strip(v)
  {
    StripKeeps(v, '@');
  }

  /** A stored invitation address passes the validator again unchanged. */
  lemma InvitationEmailIdempotent(v: string)
    requires ValidateInvitationEmail(v).Ok?
    ensures ValidateInvitationEmail(ValidateInvitationEmail(v).value) == ValidateInvitationEmail(v)
  {
    var e := Lower(Strip(v));
    StripTrimmed(e);
    LowerIdempotent(Strip(v));
  }

  /** `validate_text` of `AITransformRequest` and of `AITranslateRequest`:
      blank text is refused; any other text is kept as given, not stripped. */
  function ValidateAiText(v: string): (r: Result<string, string>)
    ensures r.Err? <==> AllSpace(v)
    ensures r.Err? ==> r.error == EmptyText
    ensures r.Ok? ==> r.value == v
  {
    StripEmpty(v);
    if Strip(v) == [] then Err(EmptyText) else Ok(v)
  }
}
