# ZKPJWT demo: component state and event handlers

A Dafny model of the state logic of the demo's single page component
(`demo/src/App.tsx`). The component holds a wallet connection (an address and a
provider handle, each possibly absent) and an editable list of authorised
wallet addresses. It also holds a secret message, a token and a verification
verdict. Its handlers connect and disconnect the wallet and add and remove
addresses. They also generate a placeholder token (a fixed header segment, a
payload segment and a fixed signature segment) and verify a token by checking
its first four characters.

Files:

- `wrappers.dfy`: module `Wrappers`, the `Option` type that stands for a field that may be `null`.
- `wallet_list.dfy`: module `WalletList`, the list operations as functions over `seq<Address>`: `Includes` (`includes`), `Added` (the guarded append), `Without` (the filter). It also holds the list invariant `IsWalletSet` (no duplicates, no empty address) and the lemmas about them.
- `token.dfy`: module `Token`, the prefix test `StartsWith`, the generated token's shape `Generated`, the test `Encodable` of whether the base64 encoder accepts the payload, and the verify verdict `Verdict`.
- `app.dfy`: module `App`, class `AppState` with one field per state hook and one method per handler. Each method's `modifies` frame names only the fields the handler's setters assign, so every other field is unchanged.
- `scenarios.dfy`: module `Scenarios`, user flows driven through the handlers and proved from their contracts alone.

The disabled conditions of the "Generate Token" and "Verify" buttons are the
`requires` of `Generate` and `Verify`. The condition `!wallet.address` is true
for both a missing and an empty address, so `Connected()` asks for an address
that is present and non-empty.

## Model

| member | source | states |
|---|---|---|
| WalletList.Includes | demo/src/App.tsx:36 | the membership test is true exactly when the address occurs in the list |
| WalletList.CanAdd | demo/src/App.tsx:36 | the add guard holds exactly when the pending address is non-empty and not already listed |
| WalletList.Added | demo/src/App.tsx:35-40 | an empty or already listed address leaves the list unchanged; any other address is appended at the end with all earlier entries kept in order; the no-duplicates, no-empty-address invariant is preserved |
| WalletList.Without | demo/src/App.tsx:42 | the filtered list contains exactly the entries different from the removed address, and is no longer than the original |
| WalletList.WithoutIsSubsequence | demo/src/App.tsx:42 | the remaining entries keep their original relative order |
| WalletList.WithoutMultiset | demo/src/App.tsx:42 | every occurrence of the removed address is deleted and every other entry keeps its number of occurrences |
| WalletList.WithoutAbsent | demo/src/App.tsx:42 | removing an address that is not listed leaves the list unchanged |
| WalletList.WithoutIdempotent | demo/src/App.tsx:42 | removing an address twice equals removing it once |
| WalletList.WithoutAppend | demo/src/App.tsx:42 | the filter of a concatenation is the concatenation of the filters |
| WalletList.WithoutAtIndex | demo/src/App.tsx:42 | on a duplicate-free list, removing the address at position i deletes exactly that position |
| WalletList.ConsNoDuplicates | demo/src/App.tsx:42 | putting an unlisted address in front of a duplicate-free list keeps it duplicate-free |
| WalletList.WithoutKeepsWalletSet | demo/src/App.tsx:42 | the filter preserves the list invariant (no duplicates, no empty address), which holds from the initial empty list of line 17 |
| WalletList.AddThenRemove | demo/src/App.tsx:35-42 | adding a fresh non-empty address and then removing it restores the original list |
| Token.StartsWith | demo/src/App.tsx:50 | the prefix test holds exactly when the prefix is no longer than the string and equals its leading slice |
| Token.Generated | demo/src/App.tsx:45 | the token is the header segment, then the payload, then the `.sig` segment, and the payload can be read back from between them |
| Token.IsLatin1 | demo/src/App.tsx:45 | the base64 encoder accepts a string exactly when every character is at most U+00FF |
| Token.AllLatin1 | demo/src/App.tsx:45 | every listed address is accepted by the base64 encoder |
| Token.Encodable | demo/src/App.tsx:45 | for well-formed Unicode text, the payload encodes exactly when the message and every listed address are Latin-1; otherwise the encoder throws |
| Token.EuroSignNotEncodable | demo/src/App.tsx:45 | a message holding the euro sign cannot be encoded, whatever the wallet list |
| Token.Verdict | demo/src/App.tsx:50 | the verdict is `Valid token!` exactly when the token starts with `eyJ0`, and `Invalid token` otherwise |
| Token.GeneratedIsAccepted | demo/src/App.tsx:45-50 | every generated token is non-empty and verifies as `Valid token!` |
| Token.VerdictIgnoresRest | demo/src/App.tsx:50 | the verdict depends only on the first four characters; nothing after them is checked |
| App.AppState.Connected | demo/src/App.tsx:66 | the wallet counts as connected exactly when the address is neither absent nor empty, the two falsy values of an optional string |
| App.AppState.CanGenerate | demo/src/App.tsx:118 | the "Generate Token" button is enabled exactly when connected with a non-empty message |
| App.AppState.CanVerify | demo/src/App.tsx:136 | the "Verify" button is enabled exactly when connected with a non-empty token |
| App.AppState.constructor | demo/src/App.tsx:13-20 | the initial state: no address, no provider, empty strings and an empty list, which satisfies the list invariant |
| App.AppState.Connect | demo/src/App.tsx:27 | a successful connection records the returned account and the provider and changes nothing else |
| App.AppState.Disconnect | demo/src/App.tsx:33 | the address and provider become absent, both buttons become disabled, and nothing else changes |
| App.AppState.SetMessage | demo/src/App.tsx:99 | typing sets the message and nothing else |
| App.AppState.SetNewWallet | demo/src/App.tsx:104 | typing sets the pending address and nothing else |
| App.AppState.SetToken | demo/src/App.tsx:134 | pasting sets the token and nothing else |
| App.AppState.AddWallet | demo/src/App.tsx:35-40 | an empty or listed pending address changes nothing; otherwise it is appended and the input cleared; the list invariant is kept |
| App.AppState.RemoveWallet | demo/src/App.tsx:42 | the new list is the filtered list, the address is gone, an absent address changes nothing, a listed one loses exactly its position, the invariant is kept |
| App.AppState.Generate | demo/src/App.tsx:44-47 | enabled only when connected with a non-empty message; when the message and addresses are encodable the token is header, payload, `.sig`, and the "Verify" button becomes enabled; otherwise the encoder throws and the token is unchanged |
| App.AppState.Verify | demo/src/App.tsx:49-51 | enabled only when connected with a non-empty token; the verdict is `Valid token!` exactly when the token starts with `eyJ0`, else `Invalid token`; only the verdict changes |
| Scenarios.AddThenRemoveFlow | demo/src/App.tsx:35-42 | typing a fresh address, adding it and removing it restores the list and clears the input; no other field changes |
| Scenarios.AddTwiceFlow | demo/src/App.tsx:35-40 | adding the same address twice has the effect of adding it once; no field other than the list and the input changes |
| Scenarios.GenerateThenVerifyFlow | demo/src/App.tsx:44-51 | verifying right after generating shows `Valid token!` whenever the encoding succeeds; when it fails, the old token is kept and verified (the flow needs that token to be non-empty, since the "Verify" button is disabled otherwise); only the token and the verdict change |
| Scenarios.DisconnectFlow | demo/src/App.tsx:33 | disconnecting keeps the wallet list, message, token and verdict |

## Left out

- Rendering: the JSX markup, CSS classes, navigation, footer and the documentation page (demo/src/App.tsx:53-181) are presentation only.
- The page and mode tab toggles (demo/src/App.tsx:14-15, 61-62, 88-89) are plain assignments with nothing to prove.
- App.AppState.Connect: models only the success path, as an assignment of a given account and provider. The check for an injected wallet with its alert, the asynchronous account request through the provider library, and the logged failure (demo/src/App.tsx:22-31) are foreign calls and I/O.
- Token.Generated: the payload segment is a parameter. In the source it is the base64 text of the JSON of the message, the wallet list and the current time. Encoding, serialisation and the clock are foreign calls. Whether the encoding fails is modelled (`Token.Encodable`); the encoded text itself is not.
- Token.Encodable: strings are modelled as sequences of Unicode scalar values, while the source's strings are sequences of UTF-16 code units. A message or address holding an unpaired surrogate is outside the model; for such text the JSON serialiser escapes the surrogate as ASCII, so the encoder would accept it.
- The clipboard copy (demo/src/App.tsx:125) is a browser side effect.
- Display formatting: the shortened address (demo/src/App.tsx:70) and the styling test on the verdict (demo/src/App.tsx:139) only affect what is shown.
- The provider handle is an opaque value; nothing in the handlers reads it.
- React batches state updates and re-renders between events; the model treats each handler as one atomic step on the current state.
