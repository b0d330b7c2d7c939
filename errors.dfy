/** The two errors the override layers can raise. */
module Errors {

  datatype Error =
    /** A local override for this plugin type is already registered (Dictionary.Add on a present key). */
    | DuplicateKey(pluginTypeName: string)
    /** No layer holds an override for this plugin type (an indexer on a missing key). */
    | LookupMiss(pluginTypeName: string)
}
