/**
 * The exceptions the repositories and cache strategies raise, and the
 * PHP errors a call into user code can raise, as one error type.
 */
module Exceptions {

  datatype Error =
    | MethodNotFound(cls: string, name: string)
    | InvalidOperator(operator: string)
    | CacheStrategyNotFound
    | CanNotSpecifyOrderByClause
    | PrimaryKeyRequired
    /** Laravel's InvalidArgumentException "Illegal operator and value combination.": null compared with an ordering operator. */
    | IllegalOperatorAndValue
    /** PHP's ArgumentCountError: a closure called with fewer arguments than it declares. */
    | ArgumentCount(passed: nat, declared: nat)
    /** PHP's TypeError: null passed for a parameter declared `string`. */
    | NullForString
}
