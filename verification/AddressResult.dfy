/** address.hpp: the outcome of an address decoder. */
module AddressResult {
  datatype Error = Empty | UnknownPrefix | BadLength | BadChecksum | BadCharacter | UnsupportedVersion
                 | UnsupportedNetwork

  datatype Result<T> = Ok(value: T) | Err(error: Error)
}
