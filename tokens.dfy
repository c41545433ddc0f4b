/**
 * The Token entity of app/assets/model.py: a record persisted under its
 * address, whose price and descriptive fields are updated in place.
 */
module Tokens {
  import opened Wrappers

  /** The field values of a token, as stored in the cache and as returned by lookups. */
  datatype TokenData = TokenData(
    address: string,
    name: Option<string>,
    symbol: Option<string>,
    decimals: Option<nat>,
    logoURI: Option<string>,
    price: real,
    stable: bool,
    liquidStakedAddress: string,
    taxed: bool,
    tax: real)

  class Token {
    /** The primary key; never reassigned. */
    const address: string
    var name: Option<string>
    var symbol: Option<string>
    var decimals: Option<nat>
    var logoURI: Option<string>
    var price: real
    var stable: bool
    var liquidStakedAddress: string
    var taxed: bool
    var tax: real
    /** The record last persisted under this token's key (`save`), if any. */
    var stored: Option<TokenData>

    function Data(): TokenData
      reads this
    {
      TokenData(address, name, symbol, decimals, logoURI, price, stable, liquidStakedAddress, taxed, tax)
    }

    /**
     * `Token.create(address=…, liquid_staked_address=…, symbol=…)`: every other
     * field takes its declared default (price 0, not stable, not taxed, tax 0,
     * nothing for name, decimals and logo), and the record is persisted.
     */
    constructor Create(address: string, liquidStakedAddress: string, symbol: Option<string>)
      ensures this.address == address && this.liquidStakedAddress == liquidStakedAddress
      ensures this.symbol == symbol
      ensures name == None && decimals == None && logoURI == None
      ensures price == 0.0 && !stable && !taxed && tax == 0.0
      ensures stored == Some(Data())
    {
      this.address := address;
      this.liquidStakedAddress := liquidStakedAddress;
      this.symbol := symbol;
      name, decimals, logoURI := None, None, None;
      price, stable, taxed, tax := 0.0, false, false, 0.0;
      new;
      stored := Some(Data());
    }

    /** `save`: persist the current field values under the token's key. */
    method Save()
      modifies this`stored
      ensures stored == Some(Data())
    {
      stored := Some(Data());
    }
  }
}
