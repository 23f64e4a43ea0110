/**
 * The state of the demo's single page component and its event handlers.
 * Each state hook is a field; each handler is a method that changes only the
 * fields its setters touch, which its `modifies` frame states.
 */
module App {

  import opened Wrappers
  import opened WalletList
  import Token

  /** The browser wallet provider handle; the model never looks inside it. */
  datatype Provider = Provider(handle: nat)

  class AppState {
    var address: Option<string>
    var provider: Option<Provider>
    var message: string
    var wallets: seq<Address>
    var newWallet: Address
    var token: string
    var result: string

    /** The component invariant: the authorised-wallet list is a wallet set. */
    ghost predicate Valid()
      reads this
    {
      IsWalletSet(wallets)
    }

    /**
     * `!wallet.address` is false: the falsy values of an optional string are
     * the absent value and the empty string, so the address is neither.
     */
    function Connected(): (r: bool)
      reads this
      ensures r <==> address != None && address != Some("")
    {
      address.Some? && address.value != ""
    }

    /** The "Generate Token" button is enabled: connected, with a non-empty message. */
    function CanGenerate(): (r: bool)
      reads this
      ensures r <==> Connected() && |message| > 0
    {
      Connected() && message != ""
    }

    /** The "Verify" button is enabled: connected, with a non-empty token. */
    function CanVerify(): (r: bool)
      reads this
      ensures r <==> Connected() && |token| > 0
    {
      Connected() && token != ""
    }

    /** The initial values of the state hooks. */
    constructor ()
      ensures Valid()
      ensures address == None && provider == None
      ensures message == "" && wallets == [] && newWallet == ""
      ensures token == "" && result == ""
    {
      address, provider := None, None;
      message, wallets, newWallet := "", [], "";
      token, result := "", "";
    }

    /** A successful connect: the first account `a` the provider `p` returned. */
    method Connect(a: string, p: Provider)
      modifies this`address, this`provider
      ensures address == Some(a) && provider == Some(p)
    {
      address, provider := Some(a), Some(p);
    }

    /** The disconnect handler forgets the address and the provider. */
    method Disconnect()
      modifies this`address, this`provider
      ensures address == None && provider == None
      ensures !Connected() && !CanGenerate() && !CanVerify()
    {
      address, provider := None, None;
    }

    /** Typing in the message box. */
    method SetMessage(m: string)
      modifies this`message
      ensures message == m
    {
      message := m;
    }

    /** Typing in the new-wallet box. */
    method SetNewWallet(w: Address)
      modifies this`newWallet
      ensures newWallet == w
    {
      newWallet := w;
    }

    /** Typing or pasting in the token box. */
    method SetToken(t: string)
      modifies this`token
      ensures token == t
    {
      token := t;
    }

    /**
     * The add handler: a non-empty address that is not yet listed is appended
     * and the input box cleared; otherwise nothing changes.
     */
    method AddWallet()
      requires Valid()
      modifies this`wallets, this`newWallet
      ensures Valid()
      ensures wallets == Added(old(wallets), old(newWallet))
      ensures old(newWallet) == "" || old(newWallet) in old(wallets) ==>
                wallets == old(wallets) && newWallet == old(newWallet)
      ensures old(newWallet) != "" && old(newWallet) !in old(wallets) ==>
                wallets == old(wallets) + [old(newWallet)] && newWallet == ""
    {
      if CanAdd(wallets, newWallet) {
        wallets := wallets + [newWallet];
        newWallet := "";
      }
    }

    /** The remove handler: every entry equal to `addr` is dropped, the rest kept in order. */
    method RemoveWallet(addr: Address)
      requires Valid()
      modifies this`wallets
      ensures Valid()
      ensures wallets == Without(old(wallets), addr)
      ensures addr !in wallets
      ensures addr !in old(wallets) ==> wallets == old(wallets)
      ensures forall i | 0 <= i < |old(wallets)| && old(wallets)[i] == addr ::
                wallets == old(wallets)[..i] + old(wallets)[i + 1..]
    {
      WithoutKeepsWalletSet(wallets, addr);
      if addr !in wallets {
        WithoutAbsent(wallets, addr);
      }
      forall i | 0 <= i < |wallets| && wallets[i] == addr
        ensures Without(wallets, addr) == wallets[..i] + wallets[i + 1..]
      {
        WithoutAtIndex(wallets, i);
      }
      wallets := Without(wallets, addr);
    }

    /**
     * The generate handler, enabled only while connected with a non-empty
     * message. `payload` is what the base64 encoder returns for the JSON of the
     * message, the wallet list and the time, when it succeeds. When the message
     * or an address holds a character above U+00FF the encoder throws, the
     * handler's promise is rejected and the token is left as it was.
     */
    method Generate(payload: string)
      requires CanGenerate()
      modifies this`token
      ensures Token.Encodable(message, wallets) ==> token == Token.Generated(payload)
      ensures Token.Encodable(message, wallets) ==>
                token[..|Token.Header|] == Token.Header &&
                token[|token| - |Token.Signature|..] == Token.Signature &&
                CanVerify()
      ensures !Token.Encodable(message, wallets) ==> token == old(token)
    {
      if Token.Encodable(message, wallets) {
        token := Token.Generated(payload);
        Token.GeneratedIsAccepted(payload);
      }
    }

    /** The verify handler, enabled only while connected with a non-empty token. */
    method Verify()
      requires CanVerify()
      modifies this`result
      ensures result == Token.Verdict(token)
      ensures result == Token.ValidMessage <==> |token| >= 4 && token[..4] == "eyJ0"
      ensures result != Token.ValidMessage ==> result == Token.InvalidMessage
    {
      result := Token.Verdict(token);
    }
  }
}
