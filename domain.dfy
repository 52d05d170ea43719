/**
 * The repository's value objects and the framework objects the core passes around,
 * reduced to the properties the core reads. Each carries an identity so that two
 * distinct objects are distinguishable.
 */
module Domain {
  import opened Common

  datatype Language = Language(id: int, languageCode: string)

  datatype Location = Location(id: int)

  datatype ContentType = ContentType(id: int, identifier: string)

  datatype ContentInfo = ContentInfo(id: int, contentTypeId: int, mainLanguageCode: string)

  /** A content item (here always a draft) with its metadata. */
  datatype Content = Content(contentInfo: ContentInfo, versionNo: int)

  /** The data object a form is bound to (ContentCreateData, ContentUpdateData); opaque. */
  datatype FormData = FormData(handle: int)

  /**
   * A Symfony form as the core sees it: whether isValid() holds, the name of the
   * button getClickedButton() returns (None for null), and getData().
   */
  datatype Form = Form(handle: int, valid: bool, clickedButton: Option<string>, data: FormData)

  /** The HTTP response an action dispatcher may produce; opaque. */
  datatype Response = Response(handle: int)
}
