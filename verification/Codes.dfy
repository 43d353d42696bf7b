/**
 The result codes of the service.
 */
module Codes {
  const ERR_OK: int := 0
  const INVALID_PARAMETERS_ERR: int := 29360128
  const NO_CONNECT_CALLBACK_ERR: int := 29360130
  const INVALID_REMOTE_PARAMETERS_ERR: int := 29360131
  const REMOTE_DEVICE_BIND_ABILITY_ERR: int := 29360132
  const DEVICE_OFFLINE_ERR: int := 29360142
  const NOTIFYCOMPLETECONTINUATION_FAILED: int := 29360152
  const CONTINUE_ABILITY_TIMEOUT_ERR: int := 29360153
  const BIND_ABILITY_UID_INVALID_ERR: int := 29360159
  const BIND_ABILITY_LEAK_ERR: int := 29360160
  const CONTINUE_FREE_INSTALL_FAILED: int := 29360205
  const CONTINUE_REMOTE_UNINSTALLED_CANNOT_FREEINSTALL: int := 29360206
  const REGISTER_EXCEED_MAX_TIMES: int := 29360207
  const TOKEN_HAS_NOT_REGISTERED: int := 29360208
  const CALLBACK_HAS_REGISTERED: int := 29360209
  const CALLBACK_HAS_NOT_REGISTERED: int := 29360210
  const UNKNOWN_CALLBACK_TYPE: int := 29360214
  const INVALID_CONTINUATION_MODE: int := 29360216
  const DMS_NOT_FOREGROUND_USER: int := 29360236
}
