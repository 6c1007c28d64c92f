/** The four public operations of apr_ldap_init.c, written as the source
    writes them: a freshly zeroed error record filled in field by field,
    later branches reading what earlier ones wrote, and `*ldap` written and
    reset in place. Each operation is proved to do exactly what the
    matching function of LdapInitSpec describes. */
module AprLdap {
  import opened LdapSdk
  import opened LdapInitSpec

  /** `apr_ldap_err_t`, allocated per call by `apr_pcalloc`. */
  class ErrRecord {
    var rc: int
    var msg: Option<int>
    var reason: Reason

    /** `apr_pcalloc`: every field zero. */
    constructor ()
      ensures Value() == Zeroed
    {
      rc := 0;
      msg := None;
      reason := NoReason;
    }

    function Value(): Record
      reads this
    {
      Record(rc, msg, reason)
    }
  }

  /** The caller's `LDAP *` variable that `apr_ldap_init` writes through `ldap`. */
  class LdapRef {
    var ld: Handle

    constructor (ld: Handle)
      ensures this.ld == ld
    {
      this.ld := ld;
    }
  }

  /** The Netscape CA block of `apr_ldap_ssl_init`, on `result` in place. */
  method NetscapeBlock(b: Build, sdk: Sdk, file: Option<Path>, ty: CaType, result: ErrRecord)
    modifies sdk, result
    ensures var s := NetscapeCa(b, file, ty, sdk.replies, old(result.Value()));
            result.Value() == s.rec && sdk.log == old(sdk.log) + s.calls
  {
    if file.Some? {
      if b.netscapeClientInit {
        if ty == Cert7Db {
          result.rc := sdk.LdapsslClientInit(file);
        } else {
          result.reason := NetscapeCert7Required;
          result.rc := NoCall;
        }
      } else {
        result.reason := NetscapeNoClientInit;
        result.rc := NoCall;
      }
    }
  }

  /** The Novell CA block of `apr_ldap_ssl_init`, on `result` in place. */
  method NovellBlock(b: Build, sdk: Sdk, file: Option<Path>, ty: CaType, result: ErrRecord)
    modifies sdk, result
    ensures var s := NovellCa(b, file, ty, sdk.replies, old(result.Value()));
            result.Value() == s.rec && sdk.log == old(sdk.log) + s.calls
  {
    if NovellCaFunctions(b) {
      // the library is initialised first, on every call
      result.rc := sdk.LdapsslClientInit(None);
      if result.rc != LdapSuccess {
        result.msg := Some(result.rc);
        result.reason := NovellInitFailed;
      } else if file.Some? {
        if ty == Der || ty == Base64 {
          if ty == Base64 {
            result.rc := sdk.LdapsslAddTrustedCert(file.value, FileTypeB64);
          } else {
            result.rc := sdk.LdapsslAddTrustedCert(file.value, FileTypeDer);
          }
          if result.rc != LdapSuccess {
            sdk.LdapsslClientDeinit();
            result.reason := NovellAddCertFailed(file.value);
          }
        } else {
          result.reason := NovellDerOrBase64Required;
          result.rc := NoCall;
        }
      }
    } else {
      result.reason := NovellFunctionsMissing;
      result.rc := NoCall;
    }
  }

  /** The OpenLDAP CA block of `apr_ldap_ssl_init`, on `result` in place. */
  method OpenLdapBlock(b: Build, sdk: Sdk, file: Option<Path>, ty: CaType, result: ErrRecord)
    modifies sdk, result
    ensures var s := OpenLdapCa(b, file, ty, sdk.replies, old(result.Value()));
            result.Value() == s.rec && sdk.log == old(sdk.log) + s.calls
  {
    if file.Some? {
      if b.optCaCertFile {
        if ty == Base64 {
          result.rc := sdk.LdapSetOption(Null, CaCertFile(file.value));
        } else {
          result.reason := OpenLdapBase64Required;
          result.rc := NoCall;
        }
      } else {
        result.reason := OpenLdapNoCaCertFile;
        result.rc := NoCall;
      }
    }
  }

  /** The toolkit blocks of `apr_ldap_ssl_init` after the Netscape one, on
      `result` in place; only the active toolkit's block runs. */
  method ToolkitBlocks(b: Build, sdk: Sdk, file: Option<Path>, ty: CaType, result: ErrRecord)
    modifies sdk, result
    ensures var s := ToolkitCa(b, file, ty, sdk.replies, old(result.Value()));
            result.Value() == s.rec && sdk.log == old(sdk.log) + s.calls
  {
    if b.toolkit == Novell {
      NovellBlock(b, sdk, file, ty, result);
    }
    if b.toolkit == OpenLdap {
      OpenLdapBlock(b, sdk, file, ty, result);
    }
    // Microsoft SDK: the registry certificate store is always available
    if b.toolkit == Microsoft {
      result.rc := LdapSuccess;
    }
    // Sun SDK
    if b.toolkit == Solaris && file.Some? {
      result.reason := SolarisNoCertStore;
      result.rc := NoCall;
    }
    // SDK not recognised
    if b.toolkit == Other && file.Some? {
      result.reason := UnknownToolkitNoSsl;
      result.rc := NoCall;
    }
  }

  /** The blocks compiled in for a build with SSL support: the Netscape
      block under its own guard, then the active toolkit's block. */
  method SslBlocksInPlace(b: Build, sdk: Sdk, file: Option<Path>, ty: CaType, result: ErrRecord)
    modifies sdk, result
    requires b.ssl && result.Value() == Zeroed
    ensures var s := CaBlocks(b, file, ty, sdk.replies);
            result.Value() == s.rec && sdk.log == old(sdk.log) + s.calls
  {
    ghost var ns := if b.netscapeSk then NetscapeCa(b, file, ty, sdk.replies, Zeroed) else Step(Zeroed, []);
    if b.netscapeSk {
      NetscapeBlock(b, sdk, file, ty, result);
    }
    ghost var log1 := sdk.log;
    ToolkitBlocks(b, sdk, file, ty, result);
    ghost var ts := ToolkitCa(b, file, ty, sdk.replies, ns.rec);
    assert sdk.log == old(sdk.log) + (ns.calls + ts.calls) by {
      assert log1 == old(sdk.log) + ns.calls;
      assert sdk.log == log1 + ts.calls;
    }
  }

  /** The body of `apr_ldap_ssl_init` between allocating the record and
      decoding it. */
  method CaBlocksInPlace(b: Build, sdk: Sdk, file: Option<Path>, ty: CaType, result: ErrRecord)
    modifies sdk, result
    requires result.Value() == Zeroed
    ensures var s := CaBlocks(b, file, ty, sdk.replies);
            result.Value() == s.rec && sdk.log == old(sdk.log) + s.calls
  {
    if b.ssl {
      SslBlocksInPlace(b, sdk, file, ty, result);
    } else if file.Some? {
      // not compiled with SSL support
      result.reason := NotBuiltWithSsl;
      result.rc := NoCall;
    }
  }

  /** `apr_ldap_ssl_init(pool, cert_auth_file, cert_file_type, &result)`. */
  method SslInit(b: Build, sdk: Sdk, file: Option<Path>, ty: CaType) returns (status: Status, result: ErrRecord)
    modifies sdk
    ensures fresh(result)
    ensures var o := CaInstall(b, file, ty, sdk.replies);
            status == o.status && result.Value() == o.rec && sdk.log == old(sdk.log) + o.calls
  {
    result := new ErrRecord();
    CaBlocksInPlace(b, sdk, file, ty, result);
    status := Conclude(result);
  }

  /** The tail of `apr_ldap_ssl_init`, on `result` in place: decode `rc`
      unless it is the sentinel, then map it to the status. */
  method Conclude(result: ErrRecord) returns (status: Status)
    modifies result
    ensures var o := Finish(Step(old(result.Value()), []));
            status == o.status && result.Value() == o.rec
  {
    if result.rc != NoCall {
      result.msg := Some(result.rc);
    }
    if result.rc != LdapSuccess {
      return AprEGeneral;
    }
    return AprSuccess;
  }

  /** `apr_ldap_ssl_deinit()`. */
  method SslDeinit(b: Build, sdk: Sdk) returns (status: Status)
    modifies sdk
    ensures status == AprSuccess
    ensures sdk.log == old(sdk.log) + DeinitCalls(b)
  {
    if b.ssl && b.clientDeinit {
      sdk.LdapsslClientDeinit();
    }
    return AprSuccess;
  }

  /** `apr_ldap_init(pool, ldap, hostname, portno, secure, &result)`. */
  method Init(b: Build, sdk: Sdk, ldap: LdapRef, host: string, port: int, secure: bool)
    returns (status: Status, result: ErrRecord)
    modifies sdk, ldap
    ensures fresh(result)
    ensures var o := Connect(b, host, port, secure, old(ldap.ld), sdk.replies);
            status == o.status && result.Value() == o.rec && ldap.ld == o.ld &&
            sdk.log == old(sdk.log) + o.calls
  {
    result := new ErrRecord();

    if !secure {
      // clear connection requested
      ldap.ld := sdk.LdapInit(host, port);
    } else if b.ssl {
      // Novell / Netscape toolkit
      if b.toolkit == Novell || b.toolkit == Netscape {
        if b.ldapsslInit {
          ldap.ld := sdk.LdapsslInit(host, port, 1);
        } else {
          result.reason := NoSslNovellNetscape;
          return AprENotImpl, result;
        }
      }

      // OpenLDAP toolkit
      if b.toolkit == OpenLdap {
        if b.optXTls {
          ldap.ld := sdk.LdapInit(host, port);
          if ldap.ld != Null {
            result.rc := sdk.LdapSetOption(ldap.ld, TlsHard);
            if result.rc != LdapSuccess {
              sdk.LdapUnbindS(ldap.ld);
              result.reason := TlsHardFailed;
              result.msg := Some(result.rc);
              ldap.ld := Null;
              return AprEGeneral, result;
            }
          }
        } else {
          result.reason := NoSslOpenLdap;
          return AprENotImpl, result;
        }
      }

      // Microsoft toolkit
      if b.toolkit == Microsoft {
        if b.sslinit {
          ldap.ld := sdk.LdapSslinit(host, port, 1);
        } else {
          result.reason := NoSslMicrosoft;
          return AprENotImpl, result;
        }
      }

      // Sun toolkit
      if b.toolkit == Solaris {
        result.reason := NoSslSun;
        return AprENotImpl, result;
      }

      // unknown toolkit
      if b.toolkit == Other {
        return AprENotImpl, result;
      }
    }

    // a null connection: report the operating system's error
    if ldap.ld == Null {
      var e := sdk.AprGetOsError();
      return OsError(e), result;
    }
    return AprSuccess, result;
  }

  /** `apr_ldap_info(pool, &result)`: always succeeds, naming the toolkit. */
  method Info(b: Build) returns (status: Status, result: ErrRecord)
    ensures fresh(result)
    ensures status == AprSuccess
    ensures result.Value() == Zeroed.(reason := BuiltWith(b.toolkit))
  {
    result := new ErrRecord();
    result.reason := BuiltWith(b.toolkit);
    return AprSuccess, result;
  }
}
