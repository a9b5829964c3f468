/** The limits of config.py that the modelled code uses. */
module Config {
  const DELIVERY_QUEUE_MAX_BYTES: nat := 4 * 1024 * 1024
  const DELIVERY_QUEUE_MAX_ITEMS: nat := 4096
  const DELIVERY_RESERVED_FRACTION: real := 0.10
  const SOCKET_QUEUE_MAX_BYTES: nat := 4 * 1024 * 1024
  const TERM_BATCH_INTERVAL: real := 0.03
  const TERM_BATCH_MAX_CHARS: nat := 32768
  const TERM_UNACKED_MAX_BYTES: nat := 512 * 1024
  const TERM_ACK_STALL_SECONDS: real := 20.0
  const TERM_HISTORY_MAX_LINES: nat := 1500
  const TERM_HISTORY_MAX_LINE_CHARS: nat := 4096
  const TERM_INIT_HISTORY_MAX_CHARS: nat := 1_048_576
  const TERM_MIN_COLS := 20
  const TERM_MAX_COLS := 500
  const TERM_MIN_ROWS := 5
  const TERM_MAX_ROWS := 200
  const TERM_INPUT_MAX_CHARS: nat := 16384
  const TERM_PENDING_INPUT_MAX_BYTES: nat := 65536
  const TERM_SILENCE_SECONDS: real := 1800.0
  const IDLE_WARN_SECONDS: real := 270.0
  const IDLE_TIMEOUT_SECONDS: real := 300.0
  const HOST_KEY_PENDING_SECONDS: real := 300.0
}
