/** Option, Result and the error conditions the catalog raises.
    Every `Error` constructor stands for one `raise` (or one implicit Python
    exception) of deriv/symbol.py, deriv/contract.py or deriv/util.py. */
module Wrappers {

  datatype Option<+T> = None | Some(value: T)

  /** The exceptions of the catalog. The message text is not modelled. */
  datatype Error =
    | InvalidString        // check_str: not a non-empty str (ValueError)
    | EmptyDurationTerm    // check_duration: exactly one of digit/unit is empty
    | UnitNotInList        // check_duration: unit outside the accepted units
    | InvalidDuration      // get_info_duration: token fails the pattern or the unit list
    | AsymmetricRange      // get_min_max_info: only one of min/max given
    | InvertedRange        // get_min_max_info: min key greater than max key
    | MultipleInstances    // find: several instances share one key
    | InvalidKeyword       // ActiveSymbol.find: unknown keyword argument
    | InvalidSearchValue   // ActiveSymbol.find: truthy non-bool `restrict`
    | InvalidFilterValue   // ActiveSymbol.find: truthy non-bool filter value
    | UnboundAllCount      // ActiveSymbol.find: the 'all' branch (UnboundLocalError)
    | KeyCombined          // ActiveSymbol.find: `key` combined with another property
    | TupleHasNoAttribute  // ActiveSymbol.find: a flag filter after `assets` (AttributeError)
    | UnknownSymbol        // populate: active symbol missing from the asset index
    | InvalidContract      // Contract(): pair not registered
    | NameTaken            // add_contracts: name registered under another type
    | MissingSymbolField   // fetch_instruments: instrument without "symbol" (KeyError)
    | ConnectionDown       // fetch_instruments: the connection is not alive

  datatype Result<+T> = Ok(value: T) | Err(error: Error)
}
