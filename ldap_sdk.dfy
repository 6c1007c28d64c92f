/** The vendor LDAP client SDK as the toolkit-independent layer sees it.

    The SDK functions are opaque. The fake below answers every call with a
    result chosen in advance by the caller (`Replies`) and appends the call,
    with its arguments, to a log; counting log entries per SDK function
    gives the call counters that the properties speak about. */
module LdapSdk {

  datatype Option<T> = None | Some(value: T)

  /** A certificate-authority file name (`const char *cert_auth_file`). */
  type Path = string

  /** An `LDAP *` connection handle; `Null` is the C null pointer. */
  datatype Handle = Null | Conn(id: nat)

  /** LDAPSSL_CERT_FILETYPE_B64 and LDAPSSL_CERT_FILETYPE_DER of the Novell SDK. */
  datatype CertFileType = FileTypeB64 | FileTypeDer

  /** The two `ldap_set_option` requests made on an OpenLDAP build. */
  datatype LdapOption =
    | CaCertFile(file: Path)  // LDAP_OPT_X_TLS_CACERTFILE, value: the file name
    | TlsHard                 // LDAP_OPT_X_TLS, value: LDAP_OPT_X_TLS_HARD

  /** One SDK call together with the arguments it was given. */
  datatype Call =
    | ClientInit(certDb: Option<Path>)                    // ldapssl_client_init(certdb, NULL)
    | AddTrustedCert(file: Path, fileType: CertFileType)  // ldapssl_add_trusted_cert
    | ClientDeinit                                        // ldapssl_client_deinit()
    | SetOption(ld: Handle, option: LdapOption)           // ldap_set_option
    | Init(host: string, port: int)                       // ldap_init
    | LdapsslInit(host: string, port: int, secure: int)   // ldapssl_init (Novell, Netscape)
    | Sslinit(host: string, port: int, secure: int)       // ldap_sslinit (Microsoft)
    | UnbindS(ld: Handle)                                 // ldap_unbind_s

  /** The SDK function a call goes to, forgetting its arguments. */
  datatype Fn =
    | ClientInitFn | AddTrustedCertFn | ClientDeinitFn | SetOptionFn
    | InitFn | LdapsslInitFn | SslinitFn | UnbindFn

  function FnOf(c: Call): Fn {
    match c
    case ClientInit(_) => ClientInitFn
    case AddTrustedCert(_, _) => AddTrustedCertFn
    case ClientDeinit => ClientDeinitFn
    case SetOption(_, _) => SetOptionFn
    case Init(_, _) => InitFn
    case LdapsslInit(_, _, _) => LdapsslInitFn
    case Sslinit(_, _, _) => SslinitFn
    case UnbindS(_) => UnbindFn
  }

  /** The call counter of `f`: how many entries of `log` go to `f`. */
  function CallsTo(log: seq<Call>, f: Fn): (n: nat)
    ensures n <= |log|
  {
    if log == [] then 0
    else (if FnOf(log[0]) == f then 1 else 0) + CallsTo(log[1..], f)
  }

  /** Counters add up over consecutive stretches of calls. */
  lemma {:induction false} CallsToAppend(a: seq<Call>, b: seq<Call>, f: Fn)
    ensures CallsTo(a + b, f) == CallsTo(a, f) + CallsTo(b, f)
  {
    if a == [] {
      assert a + b == b;
    } else {
      assert (a + b)[0] == a[0];
      assert (a + b)[1..] == a[1..] + b;
      CallsToAppend(a[1..], b, f);
    }
  }

  /** The counter of a log that starts with `c`. */
  lemma CallsToCons(c: Call, rest: seq<Call>, f: Fn)
    ensures CallsTo([c] + rest, f) == (if FnOf(c) == f then 1 else 0) + CallsTo(rest, f)
  {
    assert ([c] + rest)[1..] == rest;
  }

  /** The counters of a log of three calls. */
  lemma CallsToThree(a: Call, b: Call, c: Call, f: Fn)
    ensures CallsTo([a, b, c], f) ==
      (if FnOf(a) == f then 1 else 0) + (if FnOf(b) == f then 1 else 0) + (if FnOf(c) == f then 1 else 0)
  {
    assert [a, b, c] == [a] + ([b] + [c]);
    CallsToCons(a, [b] + [c], f);
    CallsToCons(b, [c], f);
  }

  /** What each SDK function answers, chosen by the caller of the fake;
      `osError` is what `apr_get_os_error()` reports. */
  datatype Replies = Replies(
    clientInit: int,
    addTrustedCert: int,
    setOption: int,
    init: Handle,
    ldapsslInit: Handle,
    sslinit: Handle,
    osError: int)

  /** The fake SDK: fixed replies and the log of every call made to it. */
  class Sdk {
    const replies: Replies
    var log: seq<Call>

    constructor (replies: Replies)
      ensures this.replies == replies && log == []
    {
      this.replies := replies;
      log := [];
    }

    method LdapsslClientInit(certDb: Option<Path>) returns (rc: int)
      modifies this
      ensures rc == replies.clientInit
      ensures log == old(log) + [ClientInit(certDb)]
    {
      rc := replies.clientInit;
      log := log + [ClientInit(certDb)];
    }

    method LdapsslAddTrustedCert(file: Path, fileType: CertFileType) returns (rc: int)
      modifies this
      ensures rc == replies.addTrustedCert
      ensures log == old(log) + [AddTrustedCert(file, fileType)]
    {
      rc := replies.addTrustedCert;
      log := log + [AddTrustedCert(file, fileType)];
    }

    method LdapsslClientDeinit()
      modifies this
      ensures log == old(log) + [ClientDeinit]
    {
      log := log + [ClientDeinit];
    }

    method LdapSetOption(ld: Handle, option: LdapOption) returns (rc: int)
      modifies this
      ensures rc == replies.setOption
      ensures log == old(log) + [SetOption(ld, option)]
    {
      rc := replies.setOption;
      log := log + [SetOption(ld, option)];
    }

    method LdapInit(host: string, port: int) returns (ld: Handle)
      modifies this
      ensures ld == replies.init
      ensures log == old(log) + [Init(host, port)]
    {
      ld := replies.init;
      log := log + [Init(host, port)];
    }

    method LdapsslInit(host: string, port: int, secure: int) returns (ld: Handle)
      modifies this
      ensures ld == replies.ldapsslInit
      ensures log == old(log) + [Call.LdapsslInit(host, port, secure)]
    {
      ld := replies.ldapsslInit;
      log := log + [Call.LdapsslInit(host, port, secure)];
    }

    method LdapSslinit(host: string, port: int, secure: int) returns (ld: Handle)
      modifies this
      ensures ld == replies.sslinit
      ensures log == old(log) + [Sslinit(host, port, secure)]
    {
      ld := replies.sslinit;
      log := log + [Sslinit(host, port, secure)];
    }

    method LdapUnbindS(ld: Handle)
      modifies this
      ensures log == old(log) + [UnbindS(ld)]
    {
      log := log + [UnbindS(ld)];
    }

    /** `apr_get_os_error()`: reads the environment, calls no SDK function. */
    method AprGetOsError() returns (e: int)
      ensures e == replies.osError
    {
      e := replies.osError;
    }
  }
}
