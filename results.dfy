/** Optional values and results with an error, as the server's callbacks use them:
    JavaScript's `undefined` becomes `None`, and a Node-style callback `cb(err, value)`
    becomes `Err(err)` or `Ok(value)`. */
module Results {

  datatype Option<+T> = None | Some(value: T)

  datatype Result<+T, +E> = Ok(value: T) | Err(error: E)
}
