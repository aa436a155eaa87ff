/** The Python exceptions the modelled code can raise, as values. */
module PyErrors {
  datatype PyError =
    | KeyError(key: string)     // a missing dictionary key
    | IndexError                // a list or string index out of range
    | TypeError                 // an operation applied to a value of the wrong type
    | AttributeError            // an attribute looked up on `None` (a node `find` did not find)
    | NameError(name: string)   // a call to a function that is not defined
    | StopIteration             // `next` on an exhausted CSV reader
    | ExternalError             // whatever a third-party SDK raises
}
