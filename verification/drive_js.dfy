/** drive.js: `authorize`, `uploadToDrive` and `getMimeType`, compared with
    drive.py where the two read the same credential file differently. */
module DriveJs {
  import opened Wrappers
  import opened JsonValues
  import Strings
  import opened Config
  import opened Media
  import opened Drive
  import DrivePy

  /** A property read `v.key` on a parsed JSON value other than `null`: only
      objects carry the keys tested here; on anything else the read is
      `undefined` (None). */
  function Property(v: Json, key: string): (r: Option<Json>)
    ensures r.Some? <==> v.JObj? && key in v.fields
    ensures r.Some? ==> r.value == v.fields[key]
  {
    if v.JObj? && key in v.fields then Some(v.fields[key]) else None
  }

  /** `credentials.installed || credentials.web`: the first when truthy,
      else the second. */
  function Client(doc: Json): (c: Option<Json>)
    ensures c.Some? ==> doc.JObj?
    ensures TruthyJsOpt(c) <==> TruthyJsOpt(Property(doc, "installed")) || TruthyJsOpt(Property(doc, "web"))
  {
    if TruthyJsOpt(Property(doc, "installed")) then Property(doc, "installed") else Property(doc, "web")
  }

  /** The `redirect_uris` of the client can be indexed: present and not
      `null`. */
  predicate HasRedirectUris(client: Json) {
    Property(client, "redirect_uris").Some? && Property(client, "redirect_uris").value != JNull
  }

  /** The credential-type test of `authorize`: `credentials.type ===
      'service_account'`, else `credentials.installed || credentials.web`
      when truthy, whose `redirect_uris[0]` is then read; a `null` document
      or a missing or null `redirect_uris` throws a TypeError. */
  function ClassifyJs(doc: Json): (r: Result<AuthKind, AuthError>)
    ensures doc == JNull ==> r == Failure(TypeErrorRaised)
    ensures r == Success(ServiceAccountKind) <==> Property(doc, "type") == Some(JStr("service_account"))
    ensures r == Success(OAuthKind) ==>
              doc.JObj? && (TruthyJsOpt(Property(doc, "installed")) || TruthyJsOpt(Property(doc, "web")))
    ensures r == Failure(Unsupported) <==>
              doc != JNull && Property(doc, "type") != Some(JStr("service_account")) &&
              !TruthyJsOpt(Property(doc, "installed")) && !TruthyJsOpt(Property(doc, "web"))
    ensures doc != JNull && Property(doc, "type") != Some(JStr("service_account")) && TruthyJsOpt(Client(doc)) ==>
              (r == Success(OAuthKind) <==> HasRedirectUris(Client(doc).value)) &&
              (r == Failure(TypeErrorRaised) <==> !HasRedirectUris(Client(doc).value))
    ensures r.Success? || r == Failure(Unsupported) || r == Failure(TypeErrorRaised)
  {
    if doc == JNull then Failure(TypeErrorRaised)
    else if Property(doc, "type") == Some(JStr("service_account")) then Success(ServiceAccountKind)
    else
      var client := Client(doc);
      if TruthyJsOpt(client) then
        var uris := Property(client.value, "redirect_uris");
        if uris.None? || uris.value == JNull then Failure(TypeErrorRaised) else Success(OAuthKind)
      else Failure(Unsupported)
  }

  datatype AuthJs = ServiceAccount | OAuthClient(token: Json)

  /** `authorize(logger)` given the credential file and the token file. The
      OAuth branch never runs a flow: without a token it throws. */
  function AuthorizeJs(cred: CredFile, token: CredFile): (r: Result<AuthJs, AuthError>)
    ensures cred.Missing? ==> r == Failure(CredentialsMissing)
    ensures cred.Malformed? ==> r == Failure(CredentialsUnparseable)
    ensures cred.Parsed? ==>
              (r == Success(ServiceAccount) <==> ClassifyJs(cred.doc) == Success(ServiceAccountKind))
    ensures r.Success? && r.value.OAuthClient? ==> token == Parsed(r.value.token)
    ensures cred.Parsed? && ClassifyJs(cred.doc) == Success(OAuthKind) ==>
              (r.Success? <==> token.Parsed?) &&
              (token.Missing? ==> r == Failure(TokenMissing)) &&
              (token.Malformed? ==> r == Failure(TokenUnparseable))
  {
    match cred
    case Missing => Failure(CredentialsMissing)
    case Malformed => Failure(CredentialsUnparseable)
    case Parsed(doc) =>
      var kind :- ClassifyJs(doc);
      match kind
      case ServiceAccountKind => Success(ServiceAccount)
      case OAuthKind =>
        match token
        case Missing => Failure(TokenMissing)
        case Malformed => Failure(TokenUnparseable)
        case Parsed(t) => Success(OAuthClient(t))
  }

  /** `getMimeType(fileName)`. */
  function GetMimeType(fileName: string): (m: string)
    ensures m != OctetStream <==> Strings.LowerAscii(ExtJs(fileName)) in {".mp3", ".wav", ".ogg", ".m4a", ".flac"}
  {
    MimeTypeJs(fileName)
  }

  /** The request `uploadToDrive` builds once authorised; `when` is the
      locale text of `new Date().toLocaleString()`. */
  function RequestJs(fileName: string, channelName: string, config: Config, when: string): (q: Request)
    ensures q.metadata == MetadataFor(fileName, channelName, when, FolderJs(config))
    ensures q.metadata.parents.Some? <==> TruthyJsOpt(config.googleDriveFolderId)
    ensures q.mimeType == MimeTypeJs(fileName)
    ensures q.fields == ResponseFields
  {
    Request(MetadataFor(fileName, channelName, when, FolderJs(config)), GetMimeType(fileName), ResponseFields)
  }

  datatype EnvJs = EnvJs(cred: CredFile, token: CredFile, network: Network)

  /** One call of `uploadToDrive`: the request it sends, if it gets that
      far, the permission call it makes once the file exists, and
      `response.data` or the error it rethrows. */
  datatype UploadJs = UploadJs(request: Option<Request>, share: Option<ShareRequest>, result: Result<DriveFile, UploadError>)

  function UploadToDrive(fileName: string, channelName: string, config: Config, when: string, env: EnvJs): (u: UploadJs)
    ensures u.request.Some? <==> AuthorizeJs(env.cred, env.token).Success?
    ensures u.request.Some? ==> u.request.value == RequestJs(fileName, channelName, config, when)
    ensures u.request.None? ==> u.result == Failure(AuthFailed(AuthorizeJs(env.cred, env.token).error))
    ensures u.result.Success? <==>
              u.request.Some? && env.network.created.Success? && env.network.shareError.None?
    ensures u.result.Success? ==> u.result.value == env.network.created.value
    ensures u.share.Some? <==> u.request.Some? && env.network.created.Success?
    ensures u.share.Some? ==> u.share.value.fileId == env.network.created.value.id
    ensures u.share.Some? ==> u.share.value.permission == AnyoneWithLinkCanRead
    ensures u.result.Success? ==> u.share == Some(ShareRequest(u.result.value.id, AnyoneWithLinkCanRead))
  {
    match AuthorizeJs(env.cred, env.token)
    case Failure(e) => UploadJs(None, None, Failure(AuthFailed(e)))
    case Success(_) => UploadJs(Some(RequestJs(fileName, channelName, config, when)), ShareCall(env.network), Send(env.network))
  }

  // ---------------------------------------------------------------------
  // The two credential tests side by side

  /** On a JSON object both versions recognise a service account alike. */
  lemma ServiceAccountAgrees(doc: Json)
    requires doc.JObj?
    ensures DrivePy.ClassifyPy(doc) == Success(ServiceAccountKind) <==> ClassifyJs(doc) == Success(ServiceAccountKind)
  {
  }

  /** Every object drive.js accepts as OAuth credentials drive.py accepts
      too: the JavaScript test is the stricter one. */
  lemma OAuthJsImpliesPy(doc: Json)
    requires ClassifyJs(doc) == Success(OAuthKind)
    ensures DrivePy.ClassifyPy(doc) == Success(OAuthKind)
  {
  }

  /** Where they part: an `installed` entry that is an empty object passes
      drive.py's key test but throws in drive.js; a `false` one is an OAuth
      file to drive.py and unsupported to drive.js; and a list holding the
      string "type" makes drive.py's subscription raise while drive.js
      finds no type at all. */
  lemma CredentialTestsDiverge()
    ensures DrivePy.ClassifyPy(JObj(map["installed" := JObj(map[])])) == Success(OAuthKind)
    ensures ClassifyJs(JObj(map["installed" := JObj(map[])])) == Failure(TypeErrorRaised)
    ensures DrivePy.ClassifyPy(JObj(map["installed" := JBool(false)])) == Success(OAuthKind)
    ensures ClassifyJs(JObj(map["installed" := JBool(false)])) == Failure(Unsupported)
    ensures DrivePy.ClassifyPy(JArr([JStr("type")])) == Failure(TypeErrorRaised)
    ensures ClassifyJs(JArr([JStr("type")])) == Failure(Unsupported)
  {
    assert "type" !in map["installed" := JObj(map[])];
    assert "type" !in map["installed" := JBool(false)];
  }

  /** Without a token file an OAuth credential file still works in drive.py
      (it runs the local-server flow) but not in drive.js. */
  lemma MissingTokenDiverges(doc: Json)
    requires ClassifyJs(doc) == Success(OAuthKind)
    ensures DrivePy.AuthorizePy(Parsed(doc), false, DrivePy.NoToken, true).Success?
    ensures AuthorizeJs(Parsed(doc), Missing) == Failure(TokenMissing)
  {
    OAuthJsImpliesPy(doc);
  }

  /** The two uploads describe, place and type a file alike whenever the
      folder id is a string and the name's extension is read alike. */
  lemma RequestsAgree(fileName: string, channelName: string, config: Config, when: string, id: string)
    requires config.googleDriveFolderId == Some(JStr(id))
    requires ExtPy(fileName) == ExtJs(fileName)
    ensures RequestJs(fileName, channelName, config, when).metadata
         == MetadataFor(fileName, channelName, when, FolderPy(config))
    ensures RequestJs(fileName, channelName, config, when).mimeType == MimeTypePy(fileName)
  {
    StringFolderAgrees(config, id);
  }
}
