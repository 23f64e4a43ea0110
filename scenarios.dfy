/**
 * User flows through the component's handlers, proved from the handlers'
 * contracts alone.
 */
module Scenarios {

  import opened WalletList
  import opened App
  import Token

  /** Typing a fresh address, pressing "Add" and then its "Remove" restores the list. */
  method AddThenRemoveFlow(app: AppState, w: Address)
    requires app.Valid()
    requires w != "" && w !in app.wallets
    modifies app`wallets, app`newWallet
    ensures app.Valid()
    ensures app.wallets == old(app.wallets)
    ensures app.newWallet == ""
  {
    app.SetNewWallet(w);
    app.AddWallet();
    app.RemoveWallet(w);
  }

  /** Pressing "Add" twice with the same address adds it once. */
  method AddTwiceFlow(app: AppState, w: Address)
    requires app.Valid()
    modifies app`wallets, app`newWallet
    ensures app.Valid()
    ensures app.wallets == Added(old(app.wallets), w)
  {
    app.SetNewWallet(w);
    app.AddWallet();
    app.SetNewWallet(w);
    app.AddWallet();
  }

  /**
   * Generating a token and then verifying it shows the valid message whenever
   * the payload could be encoded; otherwise the old token is verified.
   */
  method GenerateThenVerifyFlow(app: AppState, payload: string)
    requires app.CanGenerate()
    requires app.token != "" || Token.Encodable(app.message, app.wallets)
    modifies app`token, app`result
    ensures Token.Encodable(old(app.message), old(app.wallets)) ==> app.result == Token.ValidMessage
    ensures !Token.Encodable(old(app.message), old(app.wallets)) ==>
              app.token == old(app.token) && app.result == Token.Verdict(old(app.token))
  {
    app.Generate(payload);
    app.Verify();
  }

  /** Disconnecting keeps the wallet list, message, token and verdict. */
  method DisconnectFlow(app: AppState)
    modifies app
    ensures !app.Connected()
    ensures app.wallets == old(app.wallets) && app.message == old(app.message)
    ensures app.token == old(app.token) && app.result == old(app.result)
  {
    app.Disconnect();
  }
}
