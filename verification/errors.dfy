/**
 * The library raises a single kind of error, ValidationError, carrying a
 * reason. A reason commented with a quoted message is one the library
 * reports. The others are this model's own names for failures the library
 * signals in some other way (a decimal division by zero, a parse error, a
 * conversion that needs approximation) or does not document (NotPeriodic,
 * TermNotInMonths, PaymentNotLevel).
 */
module Errors {

  datatype ValidationError =
    | RateNegative                     // "rate must be non-negative"
    | PaymentCountNotPositive          // "number of payments must be positive"
    | DateCountMismatch                // "payment dates count must match number of payments"
    | NoPayments                       // "schedule must contain at least one payment"
    | ZeroDivision                     // Decimal division by zero
    | PrincipalNotPositive             // "principal must be positive"
    | ZeroCouponNeedsBullet            // "ZERO_COUPON frequency is only valid with BULLET amortization"
    | FirstPaymentNotAfterOrigination  // "first payment date must be after origination date"
    | NotPeriodic                      // a ZERO_COUPON frequency where a periodic step is needed
    | TermNotInMonths                  // a term in days or weeks where a month count is needed
    | PaymentNotLevel                  // a level payment asked of a non-level amortization
    | InvalidPeriodString              // Period.from_string on malformed text
    | InexactConversion                // a unit conversion that needs approximate=True
    | InvalidDecimal                   // Money.from_string on malformed text
    | CurveEmpty                       // "at least one point"
    | CurveNotChronological            // "chronological order"
    | CurvePointNotAfterValuation      // "after valuation date"
}
