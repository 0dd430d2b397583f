# fragmenta/server, modelled in Dafny

This project models the deterministic core of the fragmenta `server` package (Go). That core lies under its HTTP/TLS plumbing and has four parts.

- **Configuration store** (`config.go`, and construction in `server.go`). A `Server` holds a port, a production flag and three string maps: development, production and test. Exactly one map is active, chosen by the flag. The typed getters `Config`, `ConfigInt` and `ConfigBool` read the active map. `New` fills the maps and the port from the decoded configuration file, then from the `-p` flag.
- **Request tracing** (`log/middleware.go`). An 8-byte request id is rendered as upper-case hex, `XXXXXXXX-XXXXXXXX`. It is attached to the request context under a private key and read back with `Trace`/`GetRequestID`. The middleware logs a request record, runs the handler, then logs a response record with the same trace.
- **Server value builders** (`server.go`):
  - the listen address `":<port>"`;
  - the fixed timeouts (30 s read-header, 60 s read, 60 s write, 10 s idle);
  - the compatible TLS profile (minimum TLS 1.0, RFC 2246) and the modern one (minimum TLS 1.2, RFC 5246, seven pinned suites);
  - the ACME manager settings, whose host whitelist is the domain list split at single spaces;
  - the listeners each `Start*` operation runs;
  - the permanent redirect (section 15.4.2 of RFC 9110) to `host + URL`.
- **Cache headers** (`headers.go`). These are three in-place sets on the response header map. `Cache-Control` is `max-age:<days*86400>`: a colon where section 5.2.2.1 of RFC 9111 has `=`, kept as the source writes it. `ETag` is the hash in double quotes (section 8.8.3 of RFC 9110).

Files and modules:

- `basics.dfy` (`Basics`): `Option` and `Byte`.
- `numeric.dfy` (`Numeric`): Go's 64-bit `int`, wrap-around, `%d` formatting and `strconv.ParseInt`/`Atoi`.
- `log_middleware.dfy` (`Log`).
- `profiles.dfy` (`Profiles`): the `server.go` value records.
- `server.dfy` (`Fragmenta`): the `Server` class, its getters, `ReadConfig`, `ReadArguments`, `New` and the `Start*` listeners.
- `headers.dfy` (`CacheHeaders`): the `Header` class and `AddCacheHeaders`.

What was external becomes an input:

- the outcome of reading and decoding `secrets/fragmenta.json` (`ConfigFile`);
- the value of the `FRAG_ENV` variable and of the `-p` flag;
- the bytes the random source returned;
- the request's already-serialised URL;
- the formatted `Expires` value;
- what the wrapped handler logs, as a function of the request it receives.

Behaviour the model keeps from the code:

- `readConfig` stores `Atoi`'s return value in the port even when the conversion fails. That value is 0 for a syntax error and the nearer int64 bound for an overflow. The error is returned after the store, so a bad port is both an error and a changed port, not an error alone.
- `Atoi` on a 64-bit platform accepts, rejects and returns exactly what `ParseInt(s, 10, 64)` does, so one function (`ParseInt64`) models both.
- A missing environment in the decoded file is a nil map in Go. It is modelled as the empty map, which reads the same.
- `http.Header.Set` stores a key in canonical form. `"ETag"` is therefore held as `"Etag"`, and the model keeps that key.
- `days*86400` is Go `int` arithmetic and wraps at 64 bits (`Wrap64`).
- `http.ListenAndServe(":80", …)` in `StartTLSAuto` builds a server with no timeouts at all (`PlainServer`). The foreground TLS server has the fixed ones.
- `Port()` is declared in both `server.go` and `config.go`; it is modelled once, as `Fragmenta.Server.Port`.

## Model

| member | source | states |
|---|---|---|
| `Numeric.Wrap64` | headers.go:15 | Go's int64 wrap-around: identity inside the int64 range, otherwise congruent to the exact value modulo 2^64 |
| `Numeric.FormatInt` | server.go:78 | `%d` output starts with `-` exactly for negative values; the digits (after the `-`, if any) have no `+` and no leading zero, so zero is `"0"` |
| `Numeric.NatDigitsOfValue` | server.go:78 | any digit string without a leading zero is the `%d` text of its own value |
| `Numeric.FormatIntUnique` | server.go:78 | the `%d` text is the only sign-free-or-`-`, leading-zero-free text that parses to a given int64 |
| `Numeric.ParseValue` | config.go:90 | the int `Atoi` returns beside its error, which readConfig stores in the port: the value, 0 for a syntax error, the clamped int64 bound for a range error |
| `Numeric.ParseInt64` | config.go:47 | `strconv.ParseInt(s, 10, 64)`: the empty string and a lone sign are syntax errors; a range error carries the int64 bound on the side of the sign; a value comes only from a sign-optional, all-digit input, and a negative one needs a leading `-` |
| `Numeric.ParseLiteral` | config.go:47 | every optional sign followed by one or more digits, leading zeros included, parses to the value it denotes when that lies in int64, and is otherwise a range error with the bound of the sign |
| `Numeric.ParseOverflowFirst` | config.go:47 | once the leading digits exceed 2^64-1, the result is a range error with the bound of the sign whatever follows, a non-digit included |
| `Numeric.ParseOverflowBeforeLetter` | config.go:47 | `"99999999999999999999x"` is a range error with value MaxInt64, not a syntax error |
| `Numeric.FormatIntRoundTrip` | config.go:90 | parsing the `%d` form of every int64 gives that value back |
| `Numeric.FormatIntInjective` | server.go:78 | distinct int64 values have distinct decimal forms |
| `Numeric.ParseRejectsNonDigit` | config.go:47 | when the leading digits fit in 64 bits, any character that is neither a digit nor a leading sign makes the input a syntax error |
| `Numeric.ParseLoneSign` | config.go:47 | `"+"` and `"-"` alone are syntax errors (so `Atoi` returns 0), not range errors |
| `Numeric.ParsePlusSign` | config.go:47 | a leading `+` is accepted and does not change the value |
| `Log.Hex` | log/middleware.go:18 | `%X` of a byte slice: two characters per byte |
| `Log.HexDigitsOnly` | log/middleware.go:18 | every character `%X` writes is an upper-case hex digit |
| `Log.UnhexHex` | log/middleware.go:18 | `%X` is lossless: reading the digits back in pairs gives the bytes |
| `Log.RequestID.String` | log/middleware.go:17-19 | the trace is 17 characters with `-` at position 8 |
| `Log.TraceShape` | log/middleware.go:17-19 | every trace matches `^[0-9A-F]{8}-[0-9A-F]{8}$` |
| `Log.TraceRoundTrip` | log/middleware.go:17-19 | the rendering is lossless: `ParseTrace` recovers the 8 bytes from the trace |
| `Log.TraceInjective` | log/middleware.go:17-19 | two ids with the same trace are the same id |
| `Log.FilledID` | log/middleware.go:23-27 | with at least 8 random bytes, the id is their first 8 |
| `Log.NewRequestID` | log/middleware.go:23-27 | the id has exactly 8 bytes: byte i is the source's i-th byte when it delivered one and 0 otherwise, whatever the source returned |
| `Log.Trace` | log/middleware.go:33-39 | `""` exactly when no request id is attached; otherwise a trace of the required shape |
| `Log.GetRequestID` | log/middleware.go:42-44 | needs an attached id (the type assertion panics otherwise); `Trace` of the request is that id's string |
| `Log.SetRequestID` | log/middleware.go:47-51 | the new request carries rid, so `GetRequestID` gives rid and `Trace` gives `rid.String()`; method, RequestURI, length, address and every other context entry are unchanged |
| `Log.EventLog.Info` | log/middleware.go:59 | a log call appends exactly one record |
| `Log.Middleware` | log/middleware.go:57-62 | the log gains the request record, then the handler's records, then the response record. Both records carry `Trace` of the request the handler received, which is the trace of the id built from the random bytes. The request record has method, RequestURI, ContentLength and RemoteAddr; the response record has RequestURI |
| `Profiles.PortAddr` | server.go:260 | `":"` followed by exactly the `%d` text of the port, which parses back to the port |
| `Profiles.TimedServer` | server.go:83-93 | the fixed timeouts (30 s, 60 s, 60 s, 10 s) on the given address and TLS config |
| `Profiles.PlainServer` | server.go:192-194 | `http.ListenAndServe(addr, h)`'s server: given address and handler, no TLS, all timeouts zero |
| `Profiles.CompatProfile` | server.go:113-128 | minimum TLS 1.0, server preference on, curves `[P-256, X25519]` in that order, default cipher list, and the given certificate callback |
| `Profiles.ModernProfile` | server.go:153-171 | minimum TLS 1.2, server preference on, curves `[P-521, P-384, P-256]`; seven suites with distinct code points, exactly `0x1303, 0x1302, 0x1301, 0xC02B, 0xC02F, 0xC030, 0xC027` in that order |
| `Profiles.ProfilesCompared` | server.go:113-171 | the modern profile raises the minimum version, keeps server preference and drops X25519 |
| `Profiles.Split` | server.go:184 | `strings.Split(s, " ")` always gives at least one piece |
| `Profiles.JoinSplit` | server.go:184 | rejoining the pieces of `strings.Split(s, " ")` with `" "` gives `s` back |
| `Profiles.SplitPieces` | server.go:184 | no piece contains a space, and there is one piece more than there are spaces, empty pieces included |
| `Profiles.SplitJoin` | server.go:205 | splitting a join of space-free pieces gives the pieces back |
| `Profiles.ManagerFor` | server.go:184-190 | terms accepted, the given email, cache directory `secrets`; the whitelist is the space-separated domains, with one entry per space plus one |
| `Profiles.RedirectTarget` | server.go:274-276 | status 301 and a location that is the host exactly as given followed by the request URL |
| `Profiles.RedirectOf` | server.go:274-276 | the redirect-everything handler answers every request with `RedirectTarget` of its host and the request URL; the default mux and the ACME responder are foreign code and give no modelled answer |
| `Fragmenta.Section` | config.go:83-85 | a missing environment reads as the empty map |
| `Fragmenta.ActiveSection` | config.go:30-36 | the active environment is production or development, never test |
| `Fragmenta.Lookup` | config.go:40 | a map read gives the value, or `""` for a missing key |
| `Fragmenta.Server.constructor` | server.go:42-55 | production iff `FRAG_ENV` is exactly `"production"`, port 3000, three empty maps |
| `Fragmenta.Server.Port` | config.go:12-14 | the stored port, which is the one `PortString` renders |
| `Fragmenta.Server.Mode` | config.go:17-22 | `"Production"` exactly when the production flag is set, otherwise `"Development"` |
| `Fragmenta.Server.Production` | config.go:25-27 | true exactly when `Mode()` is `"Production"` |
| `Fragmenta.Server.Configuration` | config.go:30-36 | the production map in production, the development map otherwise |
| `Fragmenta.Server.Config` | config.go:39-41 | the active map's value for the key, or `""` when the key is absent |
| `Fragmenta.Server.ConfigInt` | config.go:44-53 | the value when it parses as a base-10 int64, and 0 when it is empty, not decimal or out of range |
| `Fragmenta.ConfigIntOfFormatted` | config.go:44-53 | a value stored as the decimal form of an int64 reads back as that int64 |
| `Fragmenta.Server.ConfigBool` | config.go:56-59 | true iff the raw value is exactly `"yes"` |
| `Fragmenta.Server.ReadConfig` | config.go:67-97 | Read and decode failures return their errors with nothing changed. Otherwise the three maps become the `development`/`production`/`test` entries. The port is untouched when the active `port` is empty. Otherwise it becomes `Atoi`'s value, with an error iff the string does not parse |
| `Fragmenta.Server.ReadArguments` | config.go:100-111 | the port becomes the flag value only when that value is positive |
| `Fragmenta.Server.PortString` | server.go:77-79 | `PortAddr` of the stored port: `":"` followed by exactly its `%d` text, which parses back to the port |
| `Fragmenta.Server.Start` | server.go:82-95 | the timed server on `PortString()` with no TLS and the default mux as handler, in the foreground |
| `Fragmenta.Server.StartTLS` | server.go:99-132 | the timed server on `PortString()` with the default mux, the compatible profile, and the given certificate and key files |
| `Fragmenta.Server.StartTLSModern` | server.go:139-176 | the timed server on `PortString()` with the default mux, the modern profile, and the given certificate and key files |
| `Fragmenta.Server.ConfiguredTLSServer` | server.go:220-255 | the timed server on `PortString()` with the default mux, and the compatible profile with the manager's certificate callback as its only difference |
| `Fragmenta.Server.StartTLSAuto` | server.go:183-198 | a background `:80` listener without TLS files serving the manager's HTTP-01 responder without timeouts, then the configured TLS server with certificates from the manager |
| `Fragmenta.Server.StartTLSAutocert` | server.go:204-214 | `StartTLSAuto` without the `:80` listener |
| `Fragmenta.Server.StartRedirectAll` | server.go:259-265 | one background listener on `":<p>"` whose handler answers every URL with `RedirectTarget` of the host and that URL |
| `Fragmenta.New` | server.go:39-69 | production iff `FRAG_ENV` is `"production"`. The error is None iff the file loaded and the active port is empty or parses. An unreadable file gives readConfig's open error and an undecodable one its read error, unchanged. On a load error the port is 3000 and all three maps are empty; after a load the three maps are the file's `development`, `production` and `test` entries. On a port error the port holds `Atoi`'s value and the flag is not applied. On success the port follows the flag-over-config-over-3000 precedence |
| `Fragmenta.PortPrecedence` | server.go:59-68 | config port 5000 with `-p 6000` gives 6000; the config alone gives 5000; neither gives 3000 |
| `CacheHeaders.CanonicalKey` | headers.go:15-21 | the stored key has the length of the given one |
| `CacheHeaders.CanonicalKeyCaseOnly` | headers.go:15-21 | the stored key differs from the given one in letter case only |
| `CacheHeaders.CanonicalKeyIdempotent` | headers.go:15-21 | a key already in canonical form is stored as given |
| `CacheHeaders.StoredKeys` | headers.go:15-21 | the keys are stored as `Cache-Control`, `Expires` and `Etag` |
| `CacheHeaders.CacheControl` | headers.go:15 | `"max-age:"` followed by exactly the `%d` text of `days*86400` wrapped to int64, which parses back to that value |
| `CacheHeaders.ThirtyDays` | headers.go:12-15 | for 30 days the value is `max-age:2592000` |
| `CacheHeaders.ETag` | headers.go:21 | the hash between two double quotes, unescaped, recoverable by dropping them |
| `CacheHeaders.WithCacheHeaders` | headers.go:15-21 | exactly the three keys are added or replaced, each with a single value; every other header is unchanged |
| `CacheHeaders.CacheHeadersIdempotent` | headers.go:15-21 | adding the headers twice with the same arguments equals adding them once |
| `CacheHeaders.Header.Set` | headers.go:15-21 | `Set` replaces the canonical key's values with exactly the new value |
| `CacheHeaders.AddCacheHeaders` | headers.go:12-22 | the header map becomes `WithCacheHeaders` of the old one |

## Left out

- Network listeners and goroutines: no `ListenAndServe`/`ListenAndServeTLS` call runs. The `Start*` functions give the listeners that would run, and the errors those calls return are not modelled.
- ACME (RFC 8555): `autocert.Manager`, `HostWhitelist`, `DirCache`, its HTTP-01 responder and `GetCertificate` are foreign code. The manager is a record of its settings, and the certificate callback is that record.
- File and flag reading: `ioutil.ReadFile` and `json.Unmarshal` become the `ConfigFile` input. `flag.IntVar`/`flag.Parse` become the integer flag value, with 0 when the flag is absent.
- `Expires`: the value needs the wall clock and calendar arithmetic, so it is a parameter of `AddCacheHeaders`. Only its `Set` is modelled.
- Randomness: the bytes `crypto/rand` returned are an input, and a short read leaves the rest zero.
- Log sinks: `Info`/`Time` formatting and the elapsed duration of the response record are not modelled. Records are appended values without timing.
- The handler: it is modelled by the records it logs. Its writes to the `ResponseWriter`, its panics and any change it makes to the shared `*http.Request` are not modelled.
- `http.Redirect` internals (relative-URL resolution, the HTML body) are not modelled, and neither is `URL.String`: the serialised URL is an input.
- The `Logger` field of `Server` (`log.New(os.Stderr, …)`) and `configPath` are not modelled: they are output and a constant path.
- Log.RequestID.String: a `RequestID` whose `id` is nil or shorter than 8 bytes (an importer can build `&log.RequestID{}`) makes Go's `String` and hence `Trace` panic on the slice expression; the model's id type always holds 8 bytes, so that panic is not modelled.
- Context key identity: whether two `&ctxKey{}` addresses compare equal is a Go runtime detail, so the private key is one constant. A nil `*RequestID` stored under it is not modelled.
- The model assumes a 64-bit platform, where Go's `int` is int64.
- setup.go (the interactive first-run page) and log/file.go (opening the log file) are not part of this model.
