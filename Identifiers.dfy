/** Identifiers handed out once per entity for the lifetime of the program.
    The generator that issues them is not part of this model: every
    constructor takes the fresh identifier as a parameter, and identifiers
    are compared only for equality. */
module Identifiers {

  type Identifier(==)
}
