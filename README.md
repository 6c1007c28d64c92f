# APR LDAP bootstrap: toolkit-independent SSL and connection set-up

This project models `ldap/apr_ldap_init.c` of apr-util: the layer that hides
which vendor LDAP client toolkit (Netscape, Novell, OpenLDAP, Microsoft, Sun,
or an unrecognised one) the library was built against. Behind four calls it
decides, from the build's preprocessor switches,

- how to install a trusted certificate authority (`apr_ldap_ssl_init`),
  which certificate types each toolkit accepts, when it refuses with the
  `rc = -1` "no SDK call made" sentinel, and how `rc` becomes the returned
  status;
- how to tear that set-up down (`apr_ldap_ssl_deinit`);
- how to open a plain or secure connection (`apr_ldap_init`), including
  the OpenLDAP rollback of a half-opened connection and the fallback to the
  operating system's error when a toolkit returns a null handle;
- which toolkit is in use (`apr_ldap_info`).

## How the model is built

- `ldap_sdk.dfy` (module `LdapSdk`): the vendor SDK as a fake. Each SDK
  function answers with a result chosen in advance (`Replies`) and appends
  the call and its arguments to a log; `CallsTo(log, f)` is the call counter
  of SDK function `f`.
- `ldap_init_spec.dfy` (module `LdapInitSpec`): the build (`Toolkit` plus
  one boolean per `#if`), the error record, the status, and one function
  per `#if` block of the source. Each block function takes the record the
  earlier blocks left and returns the record it leaves and the SDK calls it
  makes. `CaInstall` and `Connect` compose them in source order.
- `apr_ldap.dfy` (module `AprLdap`): the operations as the source writes
  them. `ErrRecord` is a class whose constructor zeroes every field, as
  `apr_pcalloc` does. The methods fill it field by field. Later branches
  read what earlier ones wrote. `Init` writes `*ldap` (class `LdapRef`) and
  resets it on rollback. `SslInit`, `SslDeinit` and `Init` are each proved
  to produce exactly the record, status, `*ldap` and SDK log that the
  matching `LdapInitSpec` function gives. `Info` has no such function: its
  contract states the status and record it returns.
- `ldap_properties.dfy` (module `LdapProperties`): the properties the
  source promises, stated over the spec functions. It also covers the
  documented calling pattern: one call without a CA file, then one call per
  certificate (`ldap/apr_ldap_init.c:38-54`). In these series, each call
  carries its own SDK answers, so one addition may fail and a later one
  succeed.

Two guard spellings in the source are kept as separate switches, as written:

- The Netscape CA block is guarded by `APR_HAS_NETSCAPE_LDAPSK`
  (`ldap/apr_ldap_init.c:72`). The Netscape connection path uses
  `APR_HAS_NETSCAPE_LDAPSDK` (`ldap/apr_ldap_init.c:273`). So `Build.netscapeSk`
  is independent of `Build.toolkit`.
  `LdapProperties.NetscapeCaFileIgnoredWithoutGuard` shows the consequence:
  in a Netscape build without the first macro, every CA file is accepted
  with success, and no SDK call is made.
- Inside that block the switch is spelt `APR_HAS_LDAP_SSL_CLIENT_INIT`
  (`ldap/apr_ldap_init.c:74`). The Novell block uses
  `APR_HAS_LDAPSSL_CLIENT_INIT` (`ldap/apr_ldap_init.c:96`). These are
  `Build.netscapeClientInit` and `Build.clientInit`.

Property lemmas that concern one toolkit assume `SingleToolkit(b)`: the
Netscape-only guard is not set in a build for another toolkit. No operation
requires it.

Some behaviours of the code that a caller may not expect:

- A Novell build that lacks one of `ldapssl_client_init`,
  `ldapssl_add_trusted_cert` or `ldapssl_client_deinit` fails every
  `apr_ldap_ssl_init` call, even one without a CA file.
  See `LdapProperties.NovellWithoutSslFunctions`.
- Novell calls `ldapssl_client_init` on every call
  (`ldap/apr_ldap_init.c:98`). So the usage pattern recommended at
  `ldap/apr_ldap_init.c:44-49`, one call without a file and then one call
  per certificate, initialises the library once per call.
  See `LdapProperties.NovellSessionInitialisesEveryCall`.
- Novell checks the certificate type only after `ldapssl_client_init`.
  So a refused type on Novell still makes that one SDK call.
  See `LdapProperties.UnsupportedCaTypes`.
- An unrecognised toolkit answers a secure request with "not implemented"
  and sets no reason (`ldap/apr_ldap_init.c:325-327`).

## Model

| member | source | states |
|---|---|---|
| `LdapInitSpec.NetscapeCa` | ldap/apr_ldap_init.c:72-92 | with a CA file, only a CERT7_DB file on an SDK that has `ldapssl_client_init` reaches the SDK, and `rc` is its answer; any other type, or a missing function, gives the sentinel and a reason with no call; no CA file changes nothing |
| `LdapInitSpec.NovellCa` | ldap/apr_ldap_init.c:95-144 | without all three Novell functions the call is refused, with or without a file; otherwise `ldapssl_client_init` is called exactly once and first; if it fails, its code is decoded, the reason says so, and nothing is added or torn down; a DER/BASE64 file is added once with the matching file type, and deinit runs exactly once iff adding fails, with a reason naming the file; other types get the sentinel |
| `LdapInitSpec.OpenLdapCa` | ldap/apr_ldap_init.c:147-169 | a BASE64 file becomes the process-wide LDAP_OPT_X_TLS_CACERTFILE option and `rc` is the SDK's answer; another type, or an SDK without that option, gives the sentinel and a reason with no call |
| `LdapInitSpec.NoCaSupport` | ldap/apr_ldap_init.c:180-206 | the Sun, unknown-toolkit and no-SSL blocks make no call; a CA file gives the sentinel and that block's reason; no CA file leaves the record unchanged |
| `LdapInitSpec.ToolkitCa` | ldap/apr_ldap_init.c:94-198 | Microsoft sets success with no call; Netscape (beyond its guarded block), Sun and unknown toolkits make no call; a block that makes no call keeps a message-free record either successful or sentinel-with-reason |
| `LdapInitSpec.Finish` | ldap/apr_ldap_init.c:208-216 | the message decodes `rc` unless `rc` is the sentinel; the status is APR_SUCCESS iff `rc` is LDAP_SUCCESS, otherwise APR_EGENERAL |
| `LdapInitSpec.CaBlocks` | ldap/apr_ldap_init.c:66-206 | after the blocks, a message (if any) decodes the current `rc`; with no SDK call the record is message-free and either successful or sentinel-with-reason; without SSL there is no call |
| `LdapInitSpec.CaInstall` | ldap/apr_ldap_init.c:61-218 | for every build: status is APR_SUCCESS iff `rc` is LDAP_SUCCESS, else APR_EGENERAL; `rc` other than -1 is always decoded; a message always decodes the final `rc`; a call with no SDK call either succeeded or carries the sentinel, a reason and no message; without SSL nothing is called |
| `LdapInitSpec.DeinitCalls` | ldap/apr_ldap_init.c:233-240 | `ldapssl_client_deinit` is called exactly once when the build has SSL and that function, and nothing is called otherwise |
| `LdapInitSpec.SecureBranch` | ldap/apr_ldap_init.c:269-330 | a "not implemented" return makes no call and leaves `*ldap` as the caller left it; the only early general failure is the OpenLDAP rollback (init, TLS-hard option, unbind of that handle, `*ldap` null); without SSL nothing happens |
| `LdapInitSpec.Connect` | ldap/apr_ldap_init.c:255-342 | a plain request calls only `ldap_init` and leaves a zeroed record; success implies a non-null handle and a null handle is never success; an OS-error status carries `apr_get_os_error()`'s value with a null handle; "not implemented" is only for secure SSL builds, with no call and `*ldap` untouched; general failure is only the OpenLDAP rollback, with exactly one unbind and a null handle. "A null handle is never success" holds because an OS error of 0 stays `OsError(0)` in the model (see "## Left out"); in C it would be APR_SUCCESS |
| `AprLdap.ErrRecord.constructor` | ldap/apr_ldap_init.c:66 | a new error record has `rc` 0, no message and no reason |
| `AprLdap.NetscapeBlock` | ldap/apr_ldap_init.c:72-92 | updates the record in place and appends to the SDK log exactly as `NetscapeCa` says |
| `AprLdap.NovellBlock` | ldap/apr_ldap_init.c:95-144 | updates the record in place, checking `result->rc` after each SDK call, and appends to the SDK log exactly as `NovellCa` says |
| `AprLdap.OpenLdapBlock` | ldap/apr_ldap_init.c:147-169 | updates the record in place and appends to the SDK log exactly as `OpenLdapCa` says |
| `AprLdap.ToolkitBlocks` | ldap/apr_ldap_init.c:94-198 | runs the active toolkit's block on the record in place, as `ToolkitCa` says |
| `AprLdap.SslBlocksInPlace` | ldap/apr_ldap_init.c:69-198 | with SSL, the Netscape block under its own guard and then the toolkit block leave the record and log that `CaBlocks` gives |
| `AprLdap.CaBlocksInPlace` | ldap/apr_ldap_init.c:69-206 | from a zeroed record, leaves exactly the record and SDK log of `CaBlocks`, with or without SSL |
| `AprLdap.Conclude` | ldap/apr_ldap_init.c:208-216 | decodes the message in place and returns the status that `Finish` gives |
| `AprLdap.SslInit` | ldap/apr_ldap_init.c:61-218 | returns a fresh record, a status and an SDK log equal to `CaInstall`'s, so every property of `CaInstall` holds of the operation |
| `AprLdap.SslDeinit` | ldap/apr_ldap_init.c:233-240 | always returns APR_SUCCESS and makes exactly the calls of `DeinitCalls` |
| `AprLdap.Init` | ldap/apr_ldap_init.c:255-342 | returns a fresh record and a status, leaves `*ldap`, and appends to the SDK log exactly what `Connect` gives for the caller's prior `*ldap` |
| `AprLdap.Info` | ldap/apr_ldap_init.c:351-361 | always returns APR_SUCCESS with a fresh record whose reason names the toolkit and whose other fields are zero |
| `LdapProperties.ActiveBlock` | ldap/apr_ldap_init.c:94-216 | in a single-toolkit SSL build other than Netscape, a CA call is the active toolkit's block on a zeroed record followed by the final decoding |
| `LdapProperties.NetscapeCaFile` | ldap/apr_ldap_init.c:72-92 | Netscape calls `ldapssl_client_init` once iff the file is CERT7_DB and the function exists; otherwise sentinel, reason, no message, no call, APR_EGENERAL |
| `LdapProperties.NetscapeCaFileIgnoredWithoutGuard` | ldap/apr_ldap_init.c:69-92 | in a Netscape SSL build without the block's own guard macro, any CA file of any type yields APR_SUCCESS, `rc` 0 and no SDK call |
| `LdapProperties.NovellInitFailure` | ldap/apr_ldap_init.c:98-103 | a failing `ldapssl_client_init` leaves its code as `rc` and message, reason "could not initialize SSL", APR_EGENERAL, one init call, no add and no deinit |
| `LdapProperties.NovellAddTrustedCert` | ldap/apr_ldap_init.c:106-129 | after a successful init, a DER/BASE64 file is added once with the matching file type; deinit is called exactly once iff adding fails (then the reason names the file and the status is APR_EGENERAL), and not at all iff it succeeds (then APR_SUCCESS with no reason) |
| `LdapProperties.NovellDeinitPerFailedAdd` | ldap/apr_ldap_init.c:98-128 | one Novell call makes one init call, and as many deinit calls as failed additions |
| `LdapProperties.UnsupportedCaTypes` | ldap/apr_ldap_init.c:109-161 | Novell with a type other than DER/BASE64, and OpenLDAP with a type other than BASE64, give the sentinel, a reason, no message, APR_EGENERAL, and no add or set-option call (OpenLDAP makes no call at all) |
| `LdapProperties.OpenLdapBase64CaFile` | ldap/apr_ldap_init.c:147-156 | a BASE64 file on OpenLDAP makes exactly one `ldap_set_option(NULL, LDAP_OPT_X_TLS_CACERTFILE, file)` call, and succeeds iff that call does |
| `LdapProperties.NoCaSupportToolkits` | ldap/apr_ldap_init.c:180-206 | Sun, unknown toolkits and no-SSL builds never call the SDK; a CA file gives sentinel, reason, no message, APR_EGENERAL; no CA file keeps the zeroed `rc`, decodes it and returns APR_SUCCESS |
| `LdapProperties.MicrosoftRegistryStore` | ldap/apr_ldap_init.c:172-177 | Microsoft always succeeds with `rc` LDAP_SUCCESS and no SDK call |
| `LdapProperties.NovellWithoutSslFunctions` | ldap/apr_ldap_init.c:136-143 | Novell without all three SSL functions fails every call, with or without a CA file, with the sentinel, its reason, no message and no call |
| `LdapProperties.MessageIffNotSentinel` | ldap/apr_ldap_init.c:208-210 | when no SDK function answers -1, a message is present iff `rc` is not the sentinel |
| `LdapProperties.VendorMinusOneLooksLikeRefusal` | ldap/apr_ldap_init.c:208-210 | on OpenLDAP, an `ldap_set_option` answer of -1 leaves `rc` at the sentinel with no message and no reason, although a call was made |
| `LdapProperties.NovellInitMinusOne` | ldap/apr_ldap_init.c:98-103 | on Novell, an `ldapssl_client_init` answer of -1 is decoded inside the Novell block, so `rc` is -1 with its message present and the init-failure reason |
| `LdapProperties.NovellDeinitIffAddFails` | ldap/apr_ldap_init.c:98-128 | one Novell call calls `ldapssl_client_deinit` once if init succeeded, a DER/BASE64 file was named and adding it failed, and never otherwise |
| `LdapProperties.NovellSessionInitialisesEveryCall` | ldap/apr_ldap_init.c:97-98 | over any series of calls on a Novell build, whatever the SDK answers to each, `ldapssl_client_init` is called once per call |
| `LdapProperties.NovellSessionDeinitPerFailedAdd` | ldap/apr_ldap_init.c:121-128 | over any series of calls, each with its own SDK answers, deinit calls equal the number of calls whose addition was refused |
| `LdapProperties.NovellMixedSession` | ldap/apr_ldap_init.c:98-128 | two DER additions, the first refused and the second accepted, give two init calls and one deinit call |
| `LdapProperties.OpenLdapSessionSetsEachFile` | ldap/apr_ldap_init.c:38-54 | on OpenLDAP, a series of calls with no file or BASE64 files sets exactly the named files, in order; each call succeeds iff it names no file or the SDK accepts its file |
| `LdapProperties.DocumentedUsage` | ldap/apr_ldap_init.c:44-49 | the documented NULL-then-certificates sequence on OpenLDAP gives three successes, three fresh records each with `rc` LDAP_SUCCESS, and sets exactly the two files, in order |
| `LdapProperties.PlainConnection` | ldap/apr_ldap_init.c:265-268 | a plain connection calls only `ldap_init`, makes no TLS option call, and yields the OS error iff the handle is null, success otherwise |
| `LdapProperties.SecureNotImplemented` | ldap/apr_ldap_init.c:269-330 | on an SSL build a secure request returns APR_ENOTIMPL iff the toolkit is Sun or unknown or lacks its secure-open capability, and then makes no call and leaves `*ldap` untouched |
| `LdapProperties.OpenLdapTlsRollback` | ldap/apr_ldap_init.c:284-298 | OpenLDAP sets TLS-hard on the new handle once; if that fails, the handle is unbound exactly once, `*ldap` becomes null, the record holds the code, its message and the reason, and the status is APR_EGENERAL; if it succeeds, the handle is returned with APR_SUCCESS and no unbind |
| `LdapProperties.SecureHandleCheck` | ldap/apr_ldap_init.c:332-340 | after a one-call secure open (or an OpenLDAP `ldap_init` that returned null), a null handle gives the OS error and any other handle gives APR_SUCCESS |
| `LdapProperties.SecureWithoutSsl` | ldap/apr_ldap_init.c:265-337 | without SSL a secure request calls nothing and writes nothing to `*ldap`; the status depends only on the caller's prior `*ldap` |

## Left out

- The vendor SDK functions (`ldapssl_*`, `ldap_set_option`, `ldap_init`,
  `ldap_sslinit`, `ldap_unbind_s`) are fakes with caller-chosen answers and
  a call log. Their own behaviour, and the process-wide SSL context some of
  them keep, are not modelled. The same goes for thread safety of
  concurrent CA installation, which belongs to the vendor.
- One `Sdk` object gives the same answers to every call made on it, so
  `LdapProperties.DocumentedUsage` runs its three calls against one set of
  answers. The series lemmas over `SessionCalls` give each call its own
  answers.
- `ldap_err2string` is not modelled: `msg` records which code was decoded,
  not the text.
- `reason` is a tag naming the branch that wrote it, not the string.
  `LDAP_VENDOR_NAME` is the selected `Toolkit`.
- `apr_get_os_error()` is an input (`Replies.osError`), reported as
  `OsError(code)`. An OS error value of 0, which C would return as
  APR_SUCCESS, stays a distinct `OsError(0)` in the model.
- Pool allocation (`apr_pcalloc`, `apr_pstrdup`, `apr_psprintf`) is fresh
  object allocation. The pool argument is dropped.
- Numeric values of the statuses, of `APR_LDAP_CA_TYPE_*` and of the
  Novell file-type constants are not modelled: `apr_errno.h` and
  `apr_ldap.h` are not part of this model.
- The whole file sits under `#if APR_HAS_LDAP` (`ldap/apr_ldap_init.c:30`).
  The model assumes that switch is on.
- Hostname and port are passed through unchanged. The `(char *)` casts
  have no effect in the model.
