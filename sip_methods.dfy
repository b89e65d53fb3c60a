/**
 * The SIP codes the call model needs: the `REGISTER` method code of
 * calltable.h and the final response "487 Request Terminated", which
 * `shift_destroy_call_at` compares against as a literal.
 */
module SipMethods {

  const REGISTER: int := 4

  const RES487: int := 487
}
