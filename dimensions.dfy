/** The six fixed axes every baseline is measured on (the `DIMENSIONS` table). */
module Dimensions {

  datatype Dimension = Adoption | Purpose | Flow | Trust | Value | Representation
}
