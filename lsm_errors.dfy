/**
 * The error-code surface of the C binding (lsm_error_number).
 * The numeric values follow libstoragemgmt_error.h, which is not part of this model;
 * every proof relies only on these codes being pairwise distinct.
 */
module LsmErrors {

  const OK: int := 0
  const INTERNAL_ERROR: int := 1
  const JOB_STARTED: int := 7
  const INVALID_ACCESS_GROUP: int := 100
  const INVALID_ARGUMENT: int := 101
  const INVALID_CONN: int := 102
  const INVALID_ERR: int := 103
  const INVALID_FS: int := 104
  const INVALID_INIT: int := 105
  const INVALID_POOL: int := 108
  const INVALID_SL: int := 110
  const INVALID_URI: int := 112
  const INVALID_VOL: int := 114
  const INVALID_SYSTEM: int := 116
  const NO_MEMORY: int := 152
  const VOLUME_SAME_SIZE: int := 351
  const TRANSPORT_COMMUNICATION: int := 400
  const TRANSPORT_SERIALIZATION: int := 401
}
