/** The exceptions the storage helpers raise, as values. */
module Errors {

  datatype Error =
    | UnknownFactory(name: string)   // no factory registered under `storage:<key>`
    | InitialStateNotFunction        // `initialState` is set but is not a function
    | InvalidModel                   // the record has no type name or no id
    | InitialStateRaised             // the factory's own `initialState` function threw

  /** The text of the TypeError the helpers throw themselves. */
  function TypeErrorMessage(e: Error): (message: string)
    requires !e.InitialStateRaised?
  {
    match e
    case UnknownFactory(name) => "Unknown StorageFactory: " + name
    case InitialStateNotFunction => "initialState property must be a function"
    case InvalidModel => "The model must have a `modelName` and `id` on it"
  }
}
