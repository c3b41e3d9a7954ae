/** The two checks the store makes before it changes anything: input validation and the admin test. */
module Guards {
  import opened Types
  import opened Text

  const MaxTitleLen: nat := 100
  const MaxDescriptionLen: nat := 500
  const TitleError := "Title must be 1-100 characters long."
  const DescriptionError := "Description must be 1-500 characters long."

  /** The title and the description are each non-empty and within their limit, counted in bytes. */
  ghost predicate WellFormed(title: string, description: string) {
    1 <= Utf8Len(title) <= MaxTitleLen && 1 <= Utf8Len(description) <= MaxDescriptionLen
  }

  /** Accepts exactly the well-formed inputs; the title is checked first, so its error wins. */
  function ValidateInput(title: string, description: string): (r: Result<()>)
    ensures r.Ok? <==> WellFormed(title, description)
    ensures !(1 <= Utf8Len(title) <= MaxTitleLen) ==> r == Err(InvalidInput(TitleError))
    ensures 1 <= Utf8Len(title) <= MaxTitleLen && !(1 <= Utf8Len(description) <= MaxDescriptionLen) ==>
              r == Err(InvalidInput(DescriptionError))
  {
    if title == [] || Utf8Len(title) > MaxTitleLen then Err(InvalidInput(TitleError))
    else if description == [] || Utf8Len(description) > MaxDescriptionLen then Err(InvalidInput(DescriptionError))
    else Ok(())
  }

  /** For ASCII text the limits are the character counts 1-100 and 1-500. */
  lemma AsciiLimitsAreCharacters(title: string, description: string)
    requires forall i :: 0 <= i < |title| ==> title[i] as int < 0x80
    requires forall i :: 0 <= i < |description| ==> description[i] as int < 0x80
    ensures ValidateInput(title, description).Ok? <==> 1 <= |title| <= 100 && 1 <= |description| <= 500
  {
    Utf8LenAscii(title);
    Utf8LenAscii(description);
  }

  /** The limit is in bytes: 51 two-byte characters (102 bytes) are a rejected title. */
  lemma TitleLimitCountsBytes(title: string, description: string)
    requires |title| == 51
    requires forall i :: 0 <= i < |title| ==> 0x80 <= title[i] as int < 0x800
    ensures ValidateInput(title, description) == Err(InvalidInput(TitleError))
  {
    Utf8LenTwoByte(title);
  }

  /** The caller is the admin exactly when an admin is set and it is the caller. */
  function IsAdmin(admin: Option<Principal>, caller: Principal): (r: bool)
    ensures admin == None ==> !r
    ensures r <==> admin == Some(caller)
  {
    match admin
    case None => false
    case Some(p) => p == caller
  }
}
