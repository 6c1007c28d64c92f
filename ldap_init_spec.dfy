/** What apr_ldap_init.c decides, as functions of the build configuration,
    the caller's arguments and the SDK's answers.

    Each `#if` block of the source is one function here, applied in the
    source's order to the error record the previous blocks left behind;
    each returns the record it leaves and the SDK calls it makes. The
    imperative operations in module AprLdap are proved to produce exactly
    what these functions say. */
module LdapInitSpec {
  import opened LdapSdk

  /** The toolkit apr_ldap.h selects at build time: APR_HAS_NETSCAPE_LDAPSDK,
      APR_HAS_NOVELL_LDAPSDK, APR_HAS_OPENLDAP_LDAPSDK,
      APR_HAS_MICROSOFT_LDAPSDK, APR_HAS_SOLARIS_LDAPSDK or
      APR_HAS_OTHER_LDAPSDK. */
  datatype Toolkit = Netscape | Novell | OpenLdap | Microsoft | Solaris | Other

  /** The build: the toolkit and one switch per remaining `#if`. */
  datatype Build = Build(
    toolkit: Toolkit,
    ssl: bool,                 // APR_HAS_LDAP_SSL
    netscapeSk: bool,          // APR_HAS_NETSCAPE_LDAPSK: the only guard of the Netscape CA block
    netscapeClientInit: bool,  // APR_HAS_LDAP_SSL_CLIENT_INIT, checked inside the Netscape CA block
    clientInit: bool,          // APR_HAS_LDAPSSL_CLIENT_INIT, checked by the Novell CA block
    addTrustedCert: bool,      // APR_HAS_LDAPSSL_ADD_TRUSTED_CERT
    clientDeinit: bool,        // APR_HAS_LDAPSSL_CLIENT_DEINIT
    optCaCertFile: bool,       // LDAP_OPT_X_TLS_CACERTFILE is defined
    ldapsslInit: bool,         // APR_HAS_LDAPSSL_INIT
    optXTls: bool,             // LDAP_OPT_X_TLS is defined
    sslinit: bool)             // APR_HAS_LDAP_SSLINIT

  /** The Netscape CA block has a guard of its own, spelt differently from
      the toolkit macro; a build is single-toolkit when that guard is only
      ever set together with the Netscape toolkit. */
  predicate SingleToolkit(b: Build) {
    b.netscapeSk ==> b.toolkit == Netscape
  }

  /** The three Novell functions the Novell CA block needs together. */
  predicate NovellCaFunctions(b: Build) {
    b.clientInit && b.addTrustedCert && b.clientDeinit
  }

  /** `cert_file_type`. The source only ever compares it with
      APR_LDAP_CA_TYPE_DER, _BASE64 and _CERT7_DB; every other value
      behaves as `OtherType`. */
  datatype CaType = Der | Base64 | Cert7Db | OtherType

  /** `result->reason`: unset, or the explanation one branch of the source
      writes (the text itself is not modelled, only which branch wrote it). */
  datatype Reason =
    | NoReason
    | NetscapeCert7Required          // invalid certificate type: CERT7_DB required
    | NetscapeNoClientInit           // ldapssl_client_init() not in this Netscape SDK
    | NovellInitFailed               // could not initialize SSL
    | NovellAddCertFailed(file: Path) // could not add trusted cert <file>
    | NovellDerOrBase64Required      // invalid certificate type: DER or BASE64 required
    | NovellFunctionsMissing         // the three Novell SSL functions are not all present
    | OpenLdapBase64Required         // invalid certificate type: BASE64 required
    | OpenLdapNoCaCertFile           // LDAP_OPT_X_TLS_CACERTFILE not defined
    | SolarisNoCertStore             // no way to set a certificate store on the Sun toolkit
    | UnknownToolkitNoSsl            // toolkit not recognised as supporting SSL
    | NotBuiltWithSsl                // not built with SSL support
    | NoSslNovellNetscape            // SSL not yet supported: Novell/Netscape toolkit
    | NoSslOpenLdap                  // SSL not yet supported: OpenLDAP toolkit
    | NoSslMicrosoft                 // SSL not yet supported: Microsoft toolkit
    | NoSslSun                       // SSL not yet supported: Sun toolkit
    | TlsHardFailed                  // ldap_set_option LDAP_OPT_X_TLS_HARD failed
    | BuiltWith(toolkit: Toolkit)    // "APR LDAP: Built with <vendor> LDAP SDK"

  /** LDAP_SUCCESS. */
  const LdapSuccess: int := 0
  /** The value the source stores in `rc` when it refuses without calling the SDK. */
  const NoCall: int := -1

  /** An `apr_ldap_err_t` as a value: `rc`, `msg` (the SDK's decoding of a
      code by `ldap_err2string`, kept as the code it decodes) and `reason`. */
  datatype Record = Record(rc: int, msg: Option<int>, reason: Reason)

  /** A freshly `apr_pcalloc`ed record: everything zero. */
  const Zeroed: Record := Record(0, None, NoReason)

  /** The `int` status an operation returns. */
  datatype Status = AprSuccess | AprEGeneral | AprENotImpl | OsError(code: int)

  /** The record a block leaves and the SDK calls the block makes. */
  datatype Step = Step(rec: Record, calls: seq<Call>)

  /** The whole effect of one `apr_ldap_ssl_init` call. */
  datatype CaOutcome = CaOutcome(status: Status, rec: Record, calls: seq<Call>)

  /** A record a block may leave when no SDK call was made: no message, and
      `rc` either success or the refusal sentinel together with a reason. */
  predicate Quiet(rec: Record) {
    rec.msg == None && (rec.rc == LdapSuccess || (rec.rc == NoCall && rec.reason != NoReason))
  }

  // ---------------------------------------------------------------------
  // apr_ldap_ssl_init

  /** The Netscape CA block: with a CA file, only a CERT7_DB file is handed
      to `ldapssl_client_init`, and only when the SDK has that function;
      anything else is refused with the sentinel. Without a CA file it does
      nothing. */
  function NetscapeCa(b: Build, file: Option<Path>, ty: CaType, r: Replies, rec: Record): (s: Step)
    ensures file.None? ==> s == Step(rec, [])
    ensures file.Some? && b.netscapeClientInit && ty == Cert7Db ==>
              s.calls == [ClientInit(file)] && s.rec == rec.(rc := r.clientInit)
    ensures file.Some? && !(b.netscapeClientInit && ty == Cert7Db) ==>
              s.calls == [] && s.rec.rc == NoCall && s.rec.reason != NoReason && s.rec.msg == rec.msg
    ensures Quiet(rec) && s.calls == [] ==> Quiet(s.rec)
  {
    if file.None? then Step(rec, [])
    else if !b.netscapeClientInit then Step(rec.(reason := NetscapeNoClientInit, rc := NoCall), [])
    else if ty == Cert7Db then Step(rec.(rc := r.clientInit), [ClientInit(file)])
    else Step(rec.(reason := NetscapeCert7Required, rc := NoCall), [])
  }

  /** The Novell CA block. Without all three Novell functions every call is
      refused, with or without a CA file. Otherwise the SSL library is
      initialised on every call; when that fails, nothing further is
      called. A DER or BASE64 file is then added as that file type; if
      adding fails, the library is torn down once more and the reason names
      the file. Any other type is refused with the sentinel. */
  function NovellCa(b: Build, file: Option<Path>, ty: CaType, r: Replies, rec: Record): (s: Step)
    ensures !NovellCaFunctions(b) ==>
              s.calls == [] && s.rec == rec.(rc := NoCall, reason := NovellFunctionsMissing)
    ensures NovellCaFunctions(b) ==>
              |s.calls| > 0 && s.calls[0] == ClientInit(None) && CallsTo(s.calls, ClientInitFn) == 1
    ensures NovellCaFunctions(b) && r.clientInit != LdapSuccess ==>
              s.rec == rec.(rc := r.clientInit, msg := Some(r.clientInit), reason := NovellInitFailed) &&
              CallsTo(s.calls, AddTrustedCertFn) == 0 && CallsTo(s.calls, ClientDeinitFn) == 0
    ensures NovellCaFunctions(b) && r.clientInit == LdapSuccess && file.Some? && (ty == Der || ty == Base64) ==>
              s.rec.rc == r.addTrustedCert && |s.calls| >= 2 &&
              s.calls[1] == AddTrustedCert(file.value, if ty == Base64 then FileTypeB64 else FileTypeDer) &&
              CallsTo(s.calls, AddTrustedCertFn) == 1 &&
              CallsTo(s.calls, ClientDeinitFn) == (if r.addTrustedCert == LdapSuccess then 0 else 1) &&
              (r.addTrustedCert != LdapSuccess ==> s.rec.reason == NovellAddCertFailed(file.value))
    ensures NovellCaFunctions(b) && r.clientInit == LdapSuccess && file.Some? && !(ty == Der || ty == Base64) ==>
              s.calls == [ClientInit(None)] && s.rec == rec.(rc := NoCall, reason := NovellDerOrBase64Required)
    ensures NovellCaFunctions(b) && r.clientInit == LdapSuccess && file.None? ==>
              s.calls == [ClientInit(None)] && s.rec == rec.(rc := LdapSuccess)
  {
    if !NovellCaFunctions(b) then
      Step(rec.(reason := NovellFunctionsMissing, rc := NoCall), [])
    else if r.clientInit != LdapSuccess then
      Step(rec.(rc := r.clientInit, msg := Some(r.clientInit), reason := NovellInitFailed), [ClientInit(None)])
    else if file.None? then
      Step(rec.(rc := r.clientInit), [ClientInit(None)])
    else if ty == Der || ty == Base64 then
      var add := AddTrustedCert(file.value, if ty == Base64 then FileTypeB64 else FileTypeDer);
      if r.addTrustedCert != LdapSuccess then
        var calls := [ClientInit(None), add, ClientDeinit];
        CallsToThree(ClientInit(None), add, ClientDeinit, ClientInitFn);
        CallsToThree(ClientInit(None), add, ClientDeinit, AddTrustedCertFn);
        CallsToThree(ClientInit(None), add, ClientDeinit, ClientDeinitFn);
        Step(rec.(rc := r.addTrustedCert, reason := NovellAddCertFailed(file.value)), calls)
      else
        Step(rec.(rc := r.addTrustedCert), [ClientInit(None), add])
    else
      Step(rec.(reason := NovellDerOrBase64Required, rc := NoCall), [ClientInit(None)])
  }

  /** The OpenLDAP CA block: a BASE64 file is set as the process-wide
      LDAP_OPT_X_TLS_CACERTFILE option; any other type, or an SDK without
      that option, is refused with the sentinel. */
  function OpenLdapCa(b: Build, file: Option<Path>, ty: CaType, r: Replies, rec: Record): (s: Step)
    ensures file.None? ==> s == Step(rec, [])
    ensures file.Some? && b.optCaCertFile && ty == Base64 ==>
              s.calls == [SetOption(Null, CaCertFile(file.value))] && s.rec == rec.(rc := r.setOption)
    ensures file.Some? && !(b.optCaCertFile && ty == Base64) ==>
              s.calls == [] && s.rec.rc == NoCall && s.rec.reason != NoReason && s.rec.msg == rec.msg
    ensures Quiet(rec) && s.calls == [] ==> Quiet(s.rec)
  {
    if file.None? then Step(rec, [])
    else if !b.optCaCertFile then Step(rec.(reason := OpenLdapNoCaCertFile, rc := NoCall), [])
    else if ty == Base64 then Step(rec.(rc := r.setOption), [SetOption(Null, CaCertFile(file.value))])
    else Step(rec.(reason := OpenLdapBase64Required, rc := NoCall), [])
  }

  /** The blocks of toolkits that cannot install a CA at all (Sun, an
      unrecognised toolkit, a build without SSL): a CA file is refused with
      the sentinel and `why`; no CA file leaves the record as it is. */
  function NoCaSupport(file: Option<Path>, why: Reason, rec: Record): (s: Step)
    requires why != NoReason
    ensures s.calls == []
    ensures file.None? ==> s.rec == rec
    ensures file.Some? ==> s.rec == rec.(rc := NoCall, reason := why)
  {
    if file.Some? then Step(rec.(reason := why, rc := NoCall), []) else Step(rec, [])
  }

  /** The toolkit-specific blocks after the Netscape one; exactly one of
      them is compiled in. Microsoft uses the registry store and succeeds
      without a call. */
  function ToolkitCa(b: Build, file: Option<Path>, ty: CaType, r: Replies, rec: Record): (s: Step)
    ensures b.toolkit == Microsoft ==> s == Step(rec.(rc := LdapSuccess), [])
    ensures b.toolkit in {Netscape, Solaris, Other} ==> s.calls == []
    ensures Quiet(rec) && s.calls == [] ==> Quiet(s.rec)
    ensures s.rec.msg.Some? ==> s.rec.msg == rec.msg || s.rec.msg == Some(s.rec.rc)
  {
    match b.toolkit
    case Netscape => Step(rec, [])
    case Novell => NovellCa(b, file, ty, r, rec)
    case OpenLdap => OpenLdapCa(b, file, ty, r, rec)
    case Microsoft => Step(rec.(rc := LdapSuccess), [])
    case Solaris => NoCaSupport(file, SolarisNoCertStore, rec)
    case Other => NoCaSupport(file, UnknownToolkitNoSsl, rec)
  }

  /** The tail of `apr_ldap_ssl_init`: the message decodes `rc` unless `rc`
      is the sentinel, and the status is success exactly when `rc` is
      LDAP_SUCCESS, general failure otherwise. */
  function Finish(s: Step): (o: CaOutcome)
    ensures o.status == AprSuccess <==> o.rec.rc == LdapSuccess
    ensures o.status != AprSuccess ==> o.status == AprEGeneral
    ensures o.rec.rc != NoCall ==> o.rec.msg == Some(o.rec.rc)
    ensures o.rec.rc == NoCall ==> o.rec.msg == s.rec.msg
    ensures o.rec.rc == s.rec.rc && o.rec.reason == s.rec.reason && o.calls == s.calls
  {
    var rec := if s.rec.rc != NoCall then s.rec.(msg := Some(s.rec.rc)) else s.rec;
    CaOutcome(if rec.rc != LdapSuccess then AprEGeneral else AprSuccess, rec, s.calls)
  }

  /** `apr_ldap_ssl_init(pool, file, ty, &result)`: starting from a zeroed
      record, the Netscape block (under its own guard), then the active
      toolkit's block, or the no-SSL block; then `Finish`. Whatever the
      build: the status is success exactly when `rc` is LDAP_SUCCESS and
      general failure otherwise; a message, when present, decodes the final
      `rc`; a call that made no SDK call either succeeded or carries the
      sentinel, a reason and no message; without SSL no SDK call is made. */
  function CaInstall(b: Build, file: Option<Path>, ty: CaType, r: Replies): (o: CaOutcome)
    ensures o.status == AprSuccess <==> o.rec.rc == LdapSuccess
    ensures o.status != AprSuccess ==> o.status == AprEGeneral
    ensures o.rec.rc != NoCall ==> o.rec.msg == Some(o.rec.rc)
    ensures o.rec.msg.Some? ==> o.rec.msg == Some(o.rec.rc)
    ensures o.calls == [] ==>
              o.rec.rc == LdapSuccess || (o.rec.rc == NoCall && o.rec.reason != NoReason && o.rec.msg == None)
    ensures !b.ssl ==> o.calls == []
  {
    Finish(CaBlocks(b, file, ty, r))
  }

  /** The toolkit blocks of `apr_ldap_ssl_init` in source order, from a
      zeroed record, before the final decoding. */
  function CaBlocks(b: Build, file: Option<Path>, ty: CaType, r: Replies): (s: Step)
    ensures s.calls == [] ==> Quiet(s.rec)
    ensures s.rec.msg.Some? ==> s.rec.msg == Some(s.rec.rc)
    ensures !b.ssl ==> s.calls == []
  {
    if b.ssl then
      var ns := if b.netscapeSk then NetscapeCa(b, file, ty, r, Zeroed) else Step(Zeroed, []);
      var ts := ToolkitCa(b, file, ty, r, ns.rec);
      Step(ts.rec, ns.calls + ts.calls)
    else
      NoCaSupport(file, NotBuiltWithSsl, Zeroed)
  }

  // ---------------------------------------------------------------------
  // apr_ldap_ssl_deinit

  /** `apr_ldap_ssl_deinit`: tears the SSL library down when the build has
      SSL and `ldapssl_client_deinit`, and calls nothing otherwise. */
  function DeinitCalls(b: Build): (calls: seq<Call>)
    ensures CallsTo(calls, ClientDeinitFn) == (if b.ssl && b.clientDeinit then 1 else 0)
    ensures |calls| == CallsTo(calls, ClientDeinitFn)
  {
    if b.ssl && b.clientDeinit then [ClientDeinit] else []
  }

  // ---------------------------------------------------------------------
  // apr_ldap_init

  /** The whole effect of one `apr_ldap_init` call; `ld` is `*ldap` after it. */
  datatype ConnOutcome = ConnOutcome(status: Status, rec: Record, ld: Handle, calls: seq<Call>)

  /** How a toolkit's secure-connection block ends: by returning, or by
      falling through to the final null check with a record, `*ldap` and the
      calls made. */
  datatype Branch =
    | Returned(o: ConnOutcome)
    | FallThrough(rec: Record, ld: Handle, calls: seq<Call>)

  /** The secure branch of `apr_ldap_init`. `prior` is `*ldap` as the caller
      left it: a build without SSL, and every "not implemented" return,
      leave it untouched. OpenLDAP opens a plain connection and then demands
      TLS on it; if that fails, the connection is unbound and `*ldap` reset
      to null before a general failure is returned. */
  function SecureBranch(b: Build, host: string, port: int, prior: Handle, r: Replies): (br: Branch)
    ensures br.Returned? && br.o.status == AprENotImpl ==> br.o.ld == prior && br.o.calls == []
    ensures br.Returned? ==> br.o.status == AprENotImpl || br.o.status == AprEGeneral
    ensures br.Returned? && br.o.status == AprEGeneral ==>
              b.toolkit == OpenLdap && br.o.ld == Null && r.init != Null &&
              br.o.calls == [Init(host, port), SetOption(r.init, TlsHard), UnbindS(r.init)] &&
              CallsTo(br.o.calls, UnbindFn) == 1
    ensures !b.ssl ==> br == FallThrough(Zeroed, prior, [])
  {
    if !b.ssl then FallThrough(Zeroed, prior, [])
    else if b.toolkit == Novell || b.toolkit == Netscape then
      if b.ldapsslInit then FallThrough(Zeroed, r.ldapsslInit, [LdapsslInit(host, port, 1)])
      else Returned(ConnOutcome(AprENotImpl, Zeroed.(reason := NoSslNovellNetscape), prior, []))
    else if b.toolkit == OpenLdap then
      if !b.optXTls then Returned(ConnOutcome(AprENotImpl, Zeroed.(reason := NoSslOpenLdap), prior, []))
      else if r.init == Null then FallThrough(Zeroed, Null, [Init(host, port)])
      else if r.setOption == LdapSuccess then
        FallThrough(Zeroed.(rc := r.setOption), r.init, [Init(host, port), SetOption(r.init, TlsHard)])
      else
        var calls := [Init(host, port), SetOption(r.init, TlsHard), UnbindS(r.init)];
        CallsToThree(Init(host, port), SetOption(r.init, TlsHard), UnbindS(r.init), UnbindFn);
        Returned(ConnOutcome(AprEGeneral, Record(r.setOption, Some(r.setOption), TlsHardFailed), Null, calls))
    else if b.toolkit == Microsoft then
      if b.sslinit then FallThrough(Zeroed, r.sslinit, [Sslinit(host, port, 1)])
      else Returned(ConnOutcome(AprENotImpl, Zeroed.(reason := NoSslMicrosoft), prior, []))
    else if b.toolkit == Solaris then
      Returned(ConnOutcome(AprENotImpl, Zeroed.(reason := NoSslSun), prior, []))
    else
      Returned(ConnOutcome(AprENotImpl, Zeroed, prior, []))
  }

  /** `apr_ldap_init(pool, &ld, host, port, secure, &result)` with `ld`
      equal to `prior` on entry. A plain request only calls `ldap_init`.
      On every path: success means a non-null handle; a null handle that
      reaches the end reports the operating-system error; "not implemented"
      makes no SDK call and leaves `*ldap` alone; a general failure is the
      OpenLDAP rollback, which unbinds exactly once and leaves `*ldap` null. */
  function Connect(b: Build, host: string, port: int, secure: bool, prior: Handle, r: Replies): (o: ConnOutcome)
    ensures !secure ==> o.calls == [Init(host, port)] && o.ld == r.init && o.rec == Zeroed
    ensures o.status == AprSuccess ==> o.ld != Null
    ensures o.status.OsError? ==> o.ld == Null && o.status.code == r.osError
    ensures o.ld == Null ==> o.status != AprSuccess
    ensures o.status == AprENotImpl ==> secure && b.ssl && o.calls == [] && o.ld == prior
    ensures o.status == AprEGeneral ==>
              secure && b.toolkit == OpenLdap && o.ld == Null && CallsTo(o.calls, UnbindFn) == 1
  {
    var br := if !secure then FallThrough(Zeroed, r.init, [Init(host, port)])
              else SecureBranch(b, host, port, prior, r);
    match br
    case Returned(o) => o
    case FallThrough(rec, ld, calls) =>
      ConnOutcome(if ld == Null then OsError(r.osError) else AprSuccess, rec, ld, calls)
  }
}
