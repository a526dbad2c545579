/** What the two upload modules (drive.py, drive.js) share: the credential
    file as read from disk, the file record Drive sends back, the upload
    request with its metadata, and the sharing permission. */
module Drive {
  import opened Wrappers
  import opened JsonValues

  /** The credential or token file: absent, not JSON, or parsed. */
  datatype CredFile = Missing | Malformed | Parsed(doc: Json)

  /** The kinds of credentials `authorize` recognises. */
  datatype AuthKind = ServiceAccountKind | OAuthKind

  /** Why `authorize` gives up. `TypeErrorRaised` is the exception the
      credential tests themselves raise on a list, a string or a scalar. */
  datatype AuthError =
    | CredentialsMissing
    | CredentialsUnparseable
    | TypeErrorRaised
    | Unsupported
    | KeyFileRejected
    | TokenMissing
    | TokenUnparseable
    | OAuthFailed

  /** The fields Drive returns for `fields: 'id,name,webViewLink'`; any of
      them may be absent from the response. */
  datatype DriveFile = DriveFile(id: Option<string>, name: Option<string>, webViewLink: Option<string>)

  const ResponseFields: string := "id,name,webViewLink"

  /** The file resource sent with the upload. */
  datatype Metadata = Metadata(name: string, description: string, parents: Option<seq<Json>>)

  /** Everything about one upload that does not come from the network. */
  datatype Request = Request(metadata: Metadata, mimeType: string, fields: string)

  /** The permission both versions add after the upload. */
  datatype Permission = Permission(role: string, grantee: string)

  const AnyoneWithLinkCanRead: Permission := Permission("reader", "anyone")

  /** The permission call: the file it names, taken from the creation
      response (absent when the response carries no id), and the
      permission it grants. */
  datatype ShareRequest = ShareRequest(fileId: Option<string>, permission: Permission)

  /** The upload failed at authorisation, at file creation, or at sharing
      (the file then exists on Drive). */
  datatype UploadError =
    | AuthFailed(reason: AuthError)
    | CreateFailed(message: string)
    | ShareFailed(message: string)

  /** The network's answers to the two API calls: the created file or an
      error message, and an error message for the permission call if it
      failed. */
  datatype Network = Network(created: Result<DriveFile, string>, shareError: Option<string>)

  const DescriptionHead: string := "Discord音声チャンネル「"
  const DescriptionMiddle: string := "」の録音 - "

  /** The upload description: the channel name in 「」 and the upload time. */
  function Description(channelName: string, when: string): (d: string)
    ensures |d| == |DescriptionHead| + |channelName| + |DescriptionMiddle| + |when|
    ensures d[|DescriptionHead|..|DescriptionHead| + |channelName|] == channelName
    ensures d[|d| - |when|..] == when
  {
    DescriptionHead + channelName + DescriptionMiddle + when
  }

  /** When the time text has a fixed width, the description gives back both
      the channel name and the time. */
  lemma DescriptionInjective(a: string, w: string, b: string, v: string)
    requires |w| == |v|
    requires Description(a, w) == Description(b, v)
    ensures a == b && w == v
  {
  }

  /** The metadata both versions build: the file name, the description, and
      the folder as the single parent when one is configured. */
  function MetadataFor(fileName: string, channelName: string, when: string, folder: Option<Json>): (m: Metadata)
    ensures m.name == fileName
    ensures m.description == Description(channelName, when)
    ensures m.parents.Some? <==> folder.Some?
    ensures folder.Some? ==> m.parents.value == [folder.value]
  {
    Metadata(fileName, Description(channelName, when),
      match folder
      case Some(f) => Some([f])
      case None => None)
  }

  /** The permission call made once the file exists: none when the create
      call failed, otherwise read access for anyone with the link on the
      id the create call answered with. */
  function ShareCall(network: Network): (s: Option<ShareRequest>)
    ensures s.Some? <==> network.created.Success?
    ensures s.Some? ==> s.value.fileId == network.created.value.id
    ensures s.Some? ==> s.value.permission == AnyoneWithLinkCanRead
  {
    match network.created
    case Failure(_) => None
    case Success(file) => Some(ShareRequest(file.id, AnyoneWithLinkCanRead))
  }

  /** The remote half of an upload once credentials are in hand: create the
      file, then share it with anyone holding the link. */
  function Send(network: Network): (r: Result<DriveFile, UploadError>)
    ensures r.Success? <==> network.created.Success? && network.shareError.None?
    ensures r.Success? ==> r.value == network.created.value
    ensures network.created.Failure? ==> r == Failure(CreateFailed(network.created.error))
    ensures network.created.Success? && network.shareError.Some? ==> r == Failure(ShareFailed(network.shareError.value))
    ensures r.Success? ==> ShareCall(network) == Some(ShareRequest(r.value.id, AnyoneWithLinkCanRead))
  {
    match network.created
    case Failure(e) => Failure(CreateFailed(e))
    case Success(file) =>
      match network.shareError
      case Some(e) => Failure(ShareFailed(e))
      case None => Success(file)
  }
}
