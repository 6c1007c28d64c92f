/** What apr_ldap_init.c promises its callers, proved about the decision
    functions of LdapInitSpec (and so, through their contracts, about the
    operations of AprLdap). */
module LdapProperties {
  import opened LdapSdk
  import opened LdapInitSpec
  import AprLdap

  // ---------------------------------------------------------------------
  // Installing a certificate authority: one call

  /** In a single-toolkit SSL build other than Netscape, a call is the active
      toolkit's block on a zeroed record followed by the final decoding. */
  lemma ActiveBlock(b: Build, file: Option<Path>, ty: CaType, r: Replies)
    requires b.ssl && SingleToolkit(b) && b.toolkit != Netscape
    ensures CaInstall(b, file, ty, r) == Finish(ToolkitCa(b, file, ty, r, Zeroed))
  {
    assert CaBlocks(b, file, ty, r) == ToolkitCa(b, file, ty, r, Zeroed);
  }

  /** Netscape: a CA file is handed to `ldapssl_client_init` exactly when it
      is a CERT7_DB file and the SDK has that function; otherwise the call is
      refused with the sentinel and a reason, before any SDK call. */
  lemma NetscapeCaFile(b: Build, file: Option<Path>, ty: CaType, r: Replies)
    requires b.ssl && b.netscapeSk && b.toolkit == Netscape && file.Some?
    ensures var o := CaInstall(b, file, ty, r);
            (CallsTo(o.calls, ClientInitFn) == 1 <==> b.netscapeClientInit && ty == Cert7Db) &&
            (b.netscapeClientInit && ty == Cert7Db ==> o.calls == [ClientInit(file)] && o.rec.rc == r.clientInit) &&
            (!(b.netscapeClientInit && ty == Cert7Db) ==>
               o.calls == [] && o.rec.rc == NoCall && o.rec.reason != NoReason && o.rec.msg == None &&
               o.status == AprEGeneral)
  {
  }

  /** The Netscape CA block is compiled only under its own guard macro
      (APR_HAS_NETSCAPE_LDAPSK), not under the toolkit macro that selects
      the Netscape connection path (APR_HAS_NETSCAPE_LDAPSDK). In a Netscape
      build where that guard is unset, every CA file of every type is
      accepted without any SDK call and reported as success. */
  lemma NetscapeCaFileIgnoredWithoutGuard(b: Build, file: Option<Path>, ty: CaType, r: Replies)
    requires b.ssl && !b.netscapeSk && b.toolkit == Netscape
    ensures var o := CaInstall(b, file, ty, r);
            o.calls == [] && o.status == AprSuccess && o.rec == Record(LdapSuccess, Some(LdapSuccess), NoReason)
  {
  }

  /** Novell: when the SSL library cannot be initialised, the reason says so,
      the SDK's code is decoded into the message, and no certificate is
      added (so nothing is torn down either). */
  lemma NovellInitFailure(b: Build, file: Option<Path>, ty: CaType, r: Replies)
    requires b.ssl && b.toolkit == Novell && SingleToolkit(b) && NovellCaFunctions(b)
    requires r.clientInit != LdapSuccess
    ensures var o := CaInstall(b, file, ty, r);
            o.rec == Record(r.clientInit, Some(r.clientInit), NovellInitFailed) &&
            o.status == AprEGeneral &&
            CallsTo(o.calls, ClientInitFn) == 1 &&
            CallsTo(o.calls, AddTrustedCertFn) == 0 && CallsTo(o.calls, ClientDeinitFn) == 0
  {
  }

  /** Novell: after a successful initialisation, a DER or BASE64 file is
      added as that file type; the library is torn down exactly once if,
      and only if, adding fails, and then the reason names the file. */
  lemma NovellAddTrustedCert(b: Build, f: Path, ty: CaType, r: Replies)
    requires b.ssl && b.toolkit == Novell && SingleToolkit(b) && NovellCaFunctions(b)
    requires r.clientInit == LdapSuccess && (ty == Der || ty == Base64)
    ensures var o := CaInstall(b, Some(f), ty, r);
            AddTrustedCert(f, if ty == Base64 then FileTypeB64 else FileTypeDer) in o.calls &&
            CallsTo(o.calls, AddTrustedCertFn) == 1 &&
            (CallsTo(o.calls, ClientDeinitFn) == 1 <==> r.addTrustedCert != LdapSuccess) &&
            (CallsTo(o.calls, ClientDeinitFn) == 0 <==> r.addTrustedCert == LdapSuccess) &&
            (r.addTrustedCert != LdapSuccess ==>
               o.rec.reason == NovellAddCertFailed(f) && o.status == AprEGeneral) &&
            (r.addTrustedCert == LdapSuccess ==> o.rec.reason == NoReason && o.status == AprSuccess)
  {
    ActiveBlock(b, Some(f), ty, r);
  }

  /** One Novell call: it tears down once per failed certificate addition. */
  lemma NovellDeinitPerFailedAdd(b: Build, file: Option<Path>, ty: CaType, r: Replies)
    requires b.ssl && b.toolkit == Novell && SingleToolkit(b) && NovellCaFunctions(b)
    ensures var o := CaInstall(b, file, ty, r);
            CallsTo(o.calls, ClientInitFn) == 1 &&
            CallsTo(o.calls, ClientDeinitFn) ==
              (if r.addTrustedCert != LdapSuccess then CallsTo(o.calls, AddTrustedCertFn) else 0)
  {
    ActiveBlock(b, file, ty, r);
  }

  /** Novell accepts only DER and BASE64 files, OpenLDAP only BASE64 files:
      any other type is refused with the sentinel and a reason, and no
      certificate is added or set. (Novell has initialised its library by
      then; OpenLDAP has called nothing.) */
  lemma UnsupportedCaTypes(b: Build, f: Path, ty: CaType, r: Replies)
    requires b.ssl && SingleToolkit(b)
    requires (b.toolkit == Novell && NovellCaFunctions(b) && r.clientInit == LdapSuccess && ty != Der && ty != Base64) ||
             (b.toolkit == OpenLdap && ty != Base64)
    ensures var o := CaInstall(b, Some(f), ty, r);
            o.rec.rc == NoCall && o.rec.reason != NoReason && o.rec.msg == None && o.status == AprEGeneral &&
            CallsTo(o.calls, AddTrustedCertFn) == 0 && CallsTo(o.calls, SetOptionFn) == 0 &&
            (b.toolkit == OpenLdap ==> o.calls == [])
  {
  }

  /** OpenLDAP: a BASE64 file becomes the process-wide CA file option, and
      the status follows what `ldap_set_option` answers. */
  lemma OpenLdapBase64CaFile(b: Build, f: Path, r: Replies)
    requires b.ssl && b.toolkit == OpenLdap && SingleToolkit(b) && b.optCaCertFile
    ensures var o := CaInstall(b, Some(f), Base64, r);
            o.calls == [SetOption(Null, CaCertFile(f))] &&
            o.rec.rc == r.setOption &&
            (o.status == AprSuccess <==> r.setOption == LdapSuccess)
  {
  }

  /** Toolkits that cannot install a CA (Sun, an unrecognised toolkit, a
      build without SSL) refuse a CA file with the sentinel and a reason;
      without a CA file the zeroed `rc` stands and the call succeeds. No SDK
      call is made either way. */
  lemma NoCaSupportToolkits(b: Build, file: Option<Path>, ty: CaType, r: Replies)
    requires SingleToolkit(b)
    requires !b.ssl || b.toolkit == Solaris || b.toolkit == Other
    ensures var o := CaInstall(b, file, ty, r);
            o.calls == [] &&
            (file.Some? ==> o.rec.rc == NoCall && o.rec.reason != NoReason && o.rec.msg == None &&
                            o.status == AprEGeneral) &&
            (file.None? ==> o.rec == Record(LdapSuccess, Some(LdapSuccess), NoReason) && o.status == AprSuccess)
  {
  }

  /** Microsoft uses the registry store: every call succeeds without an SDK call. */
  lemma MicrosoftRegistryStore(b: Build, file: Option<Path>, ty: CaType, r: Replies)
    requires b.ssl && b.toolkit == Microsoft && SingleToolkit(b)
    ensures var o := CaInstall(b, file, ty, r);
            o.calls == [] && o.status == AprSuccess && o.rec.rc == LdapSuccess
  {
  }

  /** Novell without all three SSL functions refuses every call, even the
      one without a CA file. */
  lemma NovellWithoutSslFunctions(b: Build, file: Option<Path>, ty: CaType, r: Replies)
    requires b.ssl && b.toolkit == Novell && SingleToolkit(b) && !NovellCaFunctions(b)
    ensures var o := CaInstall(b, file, ty, r);
            o.calls == [] && o.rec == Record(NoCall, None, NovellFunctionsMissing) && o.status == AprEGeneral
  {
  }

  /** When no SDK function answers -1, the message is decoded exactly when
      `rc` is not the sentinel. */
  lemma MessageIffNotSentinel(b: Build, file: Option<Path>, ty: CaType, r: Replies)
    requires r.clientInit != NoCall && r.addTrustedCert != NoCall && r.setOption != NoCall
    ensures var o := CaInstall(b, file, ty, r);
            o.rec.msg.Some? <==> o.rec.rc != NoCall
  {
  }

  /** On OpenLDAP, an `ldap_set_option` answer of -1 is reported like a
      refusal: `rc` is the sentinel and no message is decoded, although a
      call was made. */
  lemma VendorMinusOneLooksLikeRefusal(b: Build, f: Path, r: Replies)
    requires b.ssl && b.toolkit == OpenLdap && SingleToolkit(b) && b.optCaCertFile
    requires r.setOption == NoCall
    ensures var o := CaInstall(b, Some(f), Base64, r);
            o.calls != [] && o.rec.rc == NoCall && o.rec.msg == None && o.rec.reason == NoReason
  {
  }

  /** Novell decodes a failed `ldapssl_client_init` itself, before the final
      sentinel test; so an answer of -1 there leaves `rc` at -1 with its
      message present, unlike a refusal. */
  lemma NovellInitMinusOne(b: Build, file: Option<Path>, ty: CaType, r: Replies)
    requires b.ssl && b.toolkit == Novell && SingleToolkit(b) && NovellCaFunctions(b)
    requires r.clientInit == NoCall
    ensures var o := CaInstall(b, file, ty, r);
            o.calls != [] && o.rec.rc == NoCall && o.rec.msg == Some(NoCall) && o.rec.reason == NovellInitFailed
  {
  }

  // ---------------------------------------------------------------------
  // Installing certificate authorities: the documented calling pattern,
  // one call without a CA file followed by one call per certificate

  /** One `apr_ldap_ssl_init` call of a series: the CA file and type the
      caller passes, and what the SDK answers during that call. */
  datatype CaRequest = CaRequest(file: Option<Path>, ty: CaType, replies: Replies)

  /** The SDK calls a series of `apr_ldap_ssl_init` calls makes, in order. */
  function SessionCalls(b: Build, reqs: seq<CaRequest>): seq<Call> {
    if reqs == [] then []
    else CaInstall(b, reqs[0].file, reqs[0].ty, reqs[0].replies).calls + SessionCalls(b, reqs[1..])
  }

  /** The CA-file options an OpenLDAP session is expected to set: one per
      request that names a file, in order. */
  function CaFileOptions(reqs: seq<CaRequest>): seq<Call> {
    if reqs == [] then []
    else (if reqs[0].file.Some? then [SetOption(Null, CaCertFile(reqs[0].file.value))] else []) +
         CaFileOptions(reqs[1..])
  }

  /** A Novell call whose certificate addition the SDK refuses: the library
      initialised, a DER or BASE64 file was named, and adding it failed. */
  predicate AddFails(q: CaRequest) {
    q.replies.clientInit == LdapSuccess && q.file.Some? && (q.ty == Der || q.ty == Base64) &&
    q.replies.addTrustedCert != LdapSuccess
  }

  /** How many calls of a series have their certificate addition refused. */
  function FailedAdds(reqs: seq<CaRequest>): (n: nat)
    ensures n <= |reqs|
  {
    if reqs == [] then 0 else (if AddFails(reqs[0]) then 1 else 0) + FailedAdds(reqs[1..])
  }

  /** One Novell call tears the library down exactly when its certificate
      addition is refused. */
  lemma NovellDeinitIffAddFails(b: Build, q: CaRequest)
    requires b.ssl && b.toolkit == Novell && SingleToolkit(b) && NovellCaFunctions(b)
    ensures CallsTo(CaInstall(b, q.file, q.ty, q.replies).calls, ClientDeinitFn) == (if AddFails(q) then 1 else 0)
  {
    ActiveBlock(b, q.file, q.ty, q.replies);
    CallsToCons(ClientInit(None), [], ClientDeinitFn);
  }

  /** Novell initialises its SSL library anew on every call of a session,
      with or without a CA file, whatever the SDK answers: one
      `ldapssl_client_init` per call. */
  lemma {:induction false} NovellSessionInitialisesEveryCall(b: Build, reqs: seq<CaRequest>)
    requires b.ssl && b.toolkit == Novell && SingleToolkit(b) && NovellCaFunctions(b)
    ensures CallsTo(SessionCalls(b, reqs), ClientInitFn) == |reqs|
  {
    if reqs != [] {
      var q := reqs[0];
      var o := CaInstall(b, q.file, q.ty, q.replies);
      NovellDeinitPerFailedAdd(b, q.file, q.ty, q.replies);
      CallsToAppend(o.calls, SessionCalls(b, reqs[1..]), ClientInitFn);
      NovellSessionInitialisesEveryCall(b, reqs[1..]);
    }
  }

  /** Over a Novell session in which some additions fail and others
      succeed, `ldapssl_client_deinit` is called exactly once per refused
      addition and never otherwise. */
  lemma {:induction false} NovellSessionDeinitPerFailedAdd(b: Build, reqs: seq<CaRequest>)
    requires b.ssl && b.toolkit == Novell && SingleToolkit(b) && NovellCaFunctions(b)
    ensures CallsTo(SessionCalls(b, reqs), ClientDeinitFn) == FailedAdds(reqs)
  {
    if reqs != [] {
      var q := reqs[0];
      var o := CaInstall(b, q.file, q.ty, q.replies);
      NovellDeinitIffAddFails(b, q);
      CallsToAppend(o.calls, SessionCalls(b, reqs[1..]), ClientDeinitFn);
      NovellSessionDeinitPerFailedAdd(b, reqs[1..]);
    }
  }

  /** A Novell session of two DER certificates, the first refused by the
      SDK and the second accepted: the library is initialised twice and
      torn down once. */
  lemma NovellMixedSession(b: Build, f1: Path, f2: Path, r1: Replies, r2: Replies)
    requires b.ssl && b.toolkit == Novell && SingleToolkit(b) && NovellCaFunctions(b)
    requires r1.clientInit == LdapSuccess && r1.addTrustedCert != LdapSuccess
    requires r2.clientInit == LdapSuccess && r2.addTrustedCert == LdapSuccess
    ensures var reqs := [CaRequest(Some(f1), Der, r1), CaRequest(Some(f2), Der, r2)];
            CallsTo(SessionCalls(b, reqs), ClientInitFn) == 2 &&
            CallsTo(SessionCalls(b, reqs), ClientDeinitFn) == 1
  {
    var reqs := [CaRequest(Some(f1), Der, r1), CaRequest(Some(f2), Der, r2)];
    NovellSessionInitialisesEveryCall(b, reqs);
    NovellSessionDeinitPerFailedAdd(b, reqs);
    assert reqs[1..] == [reqs[1]];
    assert FailedAdds(reqs) == 1 + FailedAdds([reqs[1]]);
  }

  /** On OpenLDAP, a session of requests that each name no file or a BASE64
      file sets exactly the named files as CA file options, in order, and
      each call succeeds exactly when it names no file or the SDK accepts
      its file. */
  lemma {:induction false} OpenLdapSessionSetsEachFile(b: Build, reqs: seq<CaRequest>)
    requires b.ssl && b.toolkit == OpenLdap && SingleToolkit(b) && b.optCaCertFile
    requires forall i :: 0 <= i < |reqs| ==> reqs[i].file.None? || reqs[i].ty == Base64
    ensures SessionCalls(b, reqs) == CaFileOptions(reqs)
    ensures forall i :: 0 <= i < |reqs| ==>
              (CaInstall(b, reqs[i].file, reqs[i].ty, reqs[i].replies).status == AprSuccess <==>
               reqs[i].file.None? || reqs[i].replies.setOption == LdapSuccess)
  {
    if reqs != [] {
      OpenLdapSessionSetsEachFile(b, reqs[1..]);
    }
  }

  /** The calling pattern of the source's documentation on an OpenLDAP
      build: a call without a CA file, then one call per BASE64 certificate.
      Each call succeeds on its own record, and exactly the two files are
      set, in order. */
  method DocumentedUsage(b: Build, sdk: Sdk, ca1: Path, ca2: Path)
    returns (s0: Status, s1: Status, s2: Status, e0: AprLdap.ErrRecord, e1: AprLdap.ErrRecord, e2: AprLdap.ErrRecord)
    requires b.ssl && b.toolkit == OpenLdap && SingleToolkit(b) && b.optCaCertFile
    requires sdk.replies.setOption == LdapSuccess
    modifies sdk
    ensures s0 == AprSuccess && s1 == AprSuccess && s2 == AprSuccess
    ensures fresh(e0) && fresh(e1) && fresh(e2)
    ensures e0.rc == LdapSuccess && e1.rc == LdapSuccess && e2.rc == LdapSuccess
    ensures sdk.log == old(sdk.log) + [SetOption(Null, CaCertFile(ca1)), SetOption(Null, CaCertFile(ca2))]
  {
    s0, e0 := AprLdap.SslInit(b, sdk, None, OtherType);
    s1, e1 := AprLdap.SslInit(b, sdk, Some(ca1), Base64);
    s2, e2 := AprLdap.SslInit(b, sdk, Some(ca2), Base64);
  }

  // ---------------------------------------------------------------------
  // Opening a connection

  /** A plain connection only calls `ldap_init`; a null handle reports the
      operating system's error, any other handle is success. */
  lemma PlainConnection(b: Build, host: string, port: int, prior: Handle, r: Replies)
    ensures var o := Connect(b, host, port, false, prior, r);
            o.calls == [Init(host, port)] && o.ld == r.init &&
            CallsTo(o.calls, SetOptionFn) == 0 &&
            (r.init == Null ==> o.status == OsError(r.osError)) &&
            (r.init != Null ==> o.status == AprSuccess)
  {
  }

  /** A secure request on an SSL build is "not implemented" exactly when the
      toolkit is Sun or unrecognised, or lacks its secure-open capability;
      then no SDK call is made and `*ldap` keeps the caller's value. */
  lemma SecureNotImplemented(b: Build, host: string, port: int, prior: Handle, r: Replies)
    requires b.ssl
    ensures var o := Connect(b, host, port, true, prior, r);
            (o.status == AprENotImpl <==>
               b.toolkit == Solaris || b.toolkit == Other ||
               ((b.toolkit == Novell || b.toolkit == Netscape) && !b.ldapsslInit) ||
               (b.toolkit == OpenLdap && !b.optXTls) ||
               (b.toolkit == Microsoft && !b.sslinit)) &&
            (o.status == AprENotImpl ==> o.calls == [] && o.ld == prior)
  {
  }

  /** OpenLDAP opens a plain connection and demands TLS on it. If that is
      refused, the connection is unbound exactly once, `*ldap` is reset to
      null and a general failure carries the SDK's code; if it is granted,
      the connection is the caller's. */
  lemma OpenLdapTlsRollback(b: Build, host: string, port: int, prior: Handle, r: Replies)
    requires b.ssl && b.toolkit == OpenLdap && b.optXTls && r.init != Null
    ensures var o := Connect(b, host, port, true, prior, r);
            CallsTo(o.calls, SetOptionFn) == 1 && SetOption(r.init, TlsHard) in o.calls &&
            (r.setOption != LdapSuccess ==>
               o.status == AprEGeneral && o.ld == Null && UnbindS(r.init) in o.calls &&
               CallsTo(o.calls, UnbindFn) == 1 &&
               o.rec == Record(r.setOption, Some(r.setOption), TlsHardFailed)) &&
            (r.setOption == LdapSuccess ==>
               o.status == AprSuccess && o.ld == r.init && CallsTo(o.calls, UnbindFn) == 0)
  {
    var calls := [Init(host, port), SetOption(r.init, TlsHard)];
    assert calls == [Init(host, port)] + [SetOption(r.init, TlsHard)];
    CallsToCons(Init(host, port), [SetOption(r.init, TlsHard)], SetOptionFn);
    CallsToCons(Init(host, port), [SetOption(r.init, TlsHard)], UnbindFn);
    CallsToThree(Init(host, port), SetOption(r.init, TlsHard), UnbindS(r.init), SetOptionFn);
  }

  /** A secure request on a toolkit with a one-call secure open, or an
      OpenLDAP connection that ends up null, falls through to the final
      check: a null handle reports the operating system's error and any
      other handle is success. */
  lemma SecureHandleCheck(b: Build, host: string, port: int, prior: Handle, r: Replies)
    requires b.ssl
    requires ((b.toolkit == Novell || b.toolkit == Netscape) && b.ldapsslInit) ||
             (b.toolkit == Microsoft && b.sslinit) ||
             (b.toolkit == OpenLdap && b.optXTls && r.init == Null)
    ensures var o := Connect(b, host, port, true, prior, r);
            (o.ld == Null ==> o.status == OsError(r.osError)) &&
            (o.ld != Null ==> o.status == AprSuccess) &&
            |o.calls| == 1
  {
  }

  /** Without SSL support a secure request writes nothing to `*ldap`: the
      outcome depends only on the value the caller left there. */
  lemma SecureWithoutSsl(b: Build, host: string, port: int, prior: Handle, r: Replies)
    requires !b.ssl
    ensures var o := Connect(b, host, port, true, prior, r);
            o.calls == [] && o.ld == prior &&
            o.status == (if prior == Null then OsError(r.osError) else AprSuccess)
  {
  }
}
