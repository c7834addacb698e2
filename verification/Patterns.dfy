/** What stands for a part of a string that is not known (internal/analysis/values.go). */
module Patterns {
  const UNKNOWN := "{?}"
}
