/** The library's error codes. */
module Errors {
  const E_UNKNOWN := -100000
  const E_PROVIDER := -100002
  const E_NOMEM := -100003
  const E_INVAL := -100004
  const E_NO_COMPLETION := -100005
  const E_NO_EVENT := -100006
  const E_SHARED_CHANNEL := -100008
  const E_NOT_SHARED_CHNL := -100009
}
