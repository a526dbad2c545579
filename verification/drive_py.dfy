/** drive.py: `authorize`, `upload_to_drive` and `get_mime_type`. The Google
    client libraries are not modelled; their answers arrive as parameters. */
module DrivePy {
  import opened Wrappers
  import opened JsonValues
  import Strings
  import opened Timestamps
  import opened Config
  import opened Media
  import opened Drive

  /** The state of `credentials/token.json` as the OAuth branch finds it. */
  datatype TokenPy =
    | NoToken                   // no token file
    | TokenUnloadable           // present, but reading or loading it raises
    | TokenValid                // loaded and still valid
    | TokenExpiredRefreshable   // loaded, expired, with a refresh token
    | TokenUnusable             // loaded, invalid and not refreshable

  /** Where the OAuth credentials came from. */
  datatype TokenSource = StoredToken | RefreshedToken | LocalServerFlow

  datatype AuthPy = ServiceAccount | OAuth(source: TokenSource)

  /** Raises TypeError exactly where Python's `in` does. */
  function ContainsKey(doc: Json, key: string): (r: Result<bool, AuthError>)
    ensures r.Failure? <==> !(doc.JObj? || doc.JArr? || doc.JStr?)
    ensures r.Failure? ==> r.error == TypeErrorRaised
    ensures doc.JObj? ==> r == Success(key in doc.fields)
  {
    match PyContains(doc, key)
    case Success(b) => Success(b)
    case Failure(_) => Failure(TypeErrorRaised)
  }

  /** The credential-type test of `authorize`: `'type' in data and
      data['type'] == 'service_account'`, else `'installed' in data or 'web'
      in data`, else ValueError. On a list or a string `in` tests
      membership or substrings, and the subscription then raises. */
  function ClassifyPy(doc: Json): (r: Result<AuthKind, AuthError>)
    ensures doc.JObj? ==>
              (r == Success(ServiceAccountKind) <==>
                 "type" in doc.fields && doc.fields["type"] == JStr("service_account"))
    ensures doc.JObj? ==>
              (r == Success(OAuthKind) <==>
                 !("type" in doc.fields && doc.fields["type"] == JStr("service_account")) &&
                 ("installed" in doc.fields || "web" in doc.fields))
    ensures doc.JObj? ==> r.Success? || r == Failure(Unsupported)
    ensures !(doc.JObj? || doc.JArr? || doc.JStr?) ==> r == Failure(TypeErrorRaised)
    ensures doc.JArr? ==>
              (r == Failure(TypeErrorRaised) <==> JStr("type") in doc.items)
    ensures doc.JStr? ==>
              (r == Failure(TypeErrorRaised) <==> Strings.Find(doc.s, "type").Some?)
  {
    match ContainsKey(doc, "type")
    case Failure(e) => Failure(e)
    case Success(hasType) =>
      // `data['type']` on a list or a str raises TypeError; a dict holds the key here
      var subscript := PyIndex(doc, "type");
      if hasType && subscript.Failure? then Failure(TypeErrorRaised)
      else if hasType && subscript.value == JStr("service_account") then Success(ServiceAccountKind)
      else
        match ContainsKey(doc, "installed")
        case Failure(e) => Failure(e)
        case Success(installed) =>
          if installed then Success(OAuthKind)
          else
            match ContainsKey(doc, "web")
            case Failure(e) => Failure(e)
            case Success(web) => if web then Success(OAuthKind) else Failure(Unsupported)
  }

  /** `authorize(logger)` given the credential file, whether
      `from_service_account_file` accepts it as a key file, the token file,
      and whether the refresh or the local-server flow succeeds. */
  function AuthorizePy(cred: CredFile, keyOk: bool, token: TokenPy, oauthOk: bool): (r: Result<AuthPy, AuthError>)
    ensures cred.Missing? ==> r == Failure(CredentialsMissing)
    ensures cred.Malformed? ==> r == Failure(CredentialsUnparseable)
    ensures cred.Parsed? && ClassifyPy(cred.doc).Failure? ==> r == Failure(ClassifyPy(cred.doc).error)
    ensures cred.Parsed? && ClassifyPy(cred.doc) == Success(ServiceAccountKind) ==>
              r == (if keyOk then Success(ServiceAccount) else Failure(KeyFileRejected))
    ensures r == Success(ServiceAccount) ==> cred.Parsed? && ClassifyPy(cred.doc) == Success(ServiceAccountKind)
    ensures r.Success? && r.value.OAuth? ==>
              cred.Parsed? && ClassifyPy(cred.doc) == Success(OAuthKind) &&
              (r.value.source == StoredToken <==> token == TokenValid)
    ensures cred.Parsed? && ClassifyPy(cred.doc) == Success(OAuthKind) ==>
              && (token == TokenUnloadable ==> r == Failure(TokenUnparseable))
              && (r.Success? <==> token == TokenValid || (token != TokenUnloadable && oauthOk))
  {
    match cred
    case Missing => Failure(CredentialsMissing)
    case Malformed => Failure(CredentialsUnparseable)
    case Parsed(doc) =>
      var kind :- ClassifyPy(doc);
      match kind
      case ServiceAccountKind => if keyOk then Success(ServiceAccount) else Failure(KeyFileRejected)
      case OAuthKind =>
        match token
        case TokenUnloadable => Failure(TokenUnparseable)
        case TokenValid => Success(OAuth(StoredToken))
        case TokenExpiredRefreshable => if oauthOk then Success(OAuth(RefreshedToken)) else Failure(OAuthFailed)
        case _ => if oauthOk then Success(OAuth(LocalServerFlow)) else Failure(OAuthFailed)
  }

  /** The token file is rewritten whenever the stored token was not used
      as it was. */
  predicate SavesToken(a: AuthPy) {
    a.OAuth? && a.source != StoredToken
  }

  /** `get_mime_type(file_name)`. */
  function GetMimeType(fileName: string): (m: string)
    ensures m != OctetStream <==> Strings.LowerAscii(ExtPy(fileName)) in {".mp3", ".wav", ".ogg", ".m4a", ".flac"}
  {
    MimeTypePy(fileName)
  }

  /** The request `upload_to_drive` builds once authorised. */
  function RequestPy(fileName: string, channelName: string, config: Config, now: DateTime): (q: Request)
    requires Valid(now)
    ensures q.metadata == MetadataFor(fileName, channelName, DescriptionStampPy(now), FolderPy(config))
    ensures q.metadata.parents.Some? <==>
              config.googleDriveFolderId.Some? && TruthyPy(config.googleDriveFolderId.value)
    ensures q.mimeType == MimeTypePy(fileName)
    ensures q.fields == ResponseFields
  {
    Request(MetadataFor(fileName, channelName, DescriptionStampPy(now), FolderPy(config)),
            GetMimeType(fileName), ResponseFields)
  }

  /** All the upload depends on: the credential file and whether the
      service-account loader accepts it, the token file, whether an OAuth
      refresh or flow succeeds, and the network's answers. */
  datatype EnvPy = EnvPy(cred: CredFile, keyOk: bool, token: TokenPy, oauthOk: bool, network: Network)

  /** One call of `upload_to_drive`: the request it sends, if it gets that
      far, the permission call it makes once the file exists, and
      the dict it returns or the exception it re-raises. */
  datatype UploadPy = UploadPy(request: Option<Request>, share: Option<ShareRequest>, result: Result<DriveFile, UploadError>)

  function UploadToDrive(fileName: string, channelName: string, config: Config, now: DateTime, env: EnvPy): (u: UploadPy)
    requires Valid(now)
    ensures u.request.Some? <==> AuthorizePy(env.cred, env.keyOk, env.token, env.oauthOk).Success?
    ensures u.request.Some? ==> u.request.value == RequestPy(fileName, channelName, config, now)
    ensures u.request.None? ==> u.result == Failure(AuthFailed(AuthorizePy(env.cred, env.keyOk, env.token, env.oauthOk).error))
    ensures u.result.Success? <==>
              u.request.Some? && env.network.created.Success? && env.network.shareError.None?
    ensures u.result.Success? ==> u.result.value == env.network.created.value
    ensures u.share.Some? <==> u.request.Some? && env.network.created.Success?
    ensures u.share.Some? ==> u.share.value.fileId == env.network.created.value.id
    ensures u.share.Some? ==> u.share.value.permission == AnyoneWithLinkCanRead
    ensures u.result.Success? ==> u.share == Some(ShareRequest(u.result.value.id, AnyoneWithLinkCanRead))
  {
    match AuthorizePy(env.cred, env.keyOk, env.token, env.oauthOk)
    case Failure(e) => UploadPy(None, None, Failure(AuthFailed(e)))
    case Success(_) => UploadPy(Some(RequestPy(fileName, channelName, config, now)), ShareCall(env.network), Send(env.network))
  }

  /** The upload description names the channel: it can be read back from
      the metadata. */
  lemma DescriptionNamesChannel(fileName: string, a: string, b: string, config: Config, t: DateTime, u: DateTime)
    requires Valid(t) && Valid(u)
    requires RequestPy(fileName, a, config, t).metadata.description == RequestPy(fileName, b, config, u).metadata.description
    ensures a == b
    ensures StampPy(t) == StampPy(u)
  {
    DescriptionInjective(a, DescriptionStampPy(t), b, DescriptionStampPy(u));
    DescriptionStampToTheSecond(t, u);
  }

  /** The description's time text, like the file-name stamp, pins the time
      down to the second. */
  lemma DescriptionStampToTheSecond(t: DateTime, u: DateTime)
    requires Valid(t) && Valid(u)
    requires DescriptionStampPy(t) == DescriptionStampPy(u)
    ensures StampPy(t) == StampPy(u)
  {
    LayoutInjectiveToTheSecond(t, u, '-', '-', ' ', ':', ':');
    StampPyInjectiveToTheSecond(t, u);
  }
}
