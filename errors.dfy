/**
 * The errors the back end throws. Every service builds them with a small helper
 * that sets `status` and `name` (badRequest 400, notFound 404, conflict 409, a
 * 403 Forbidden object in the customers repository); anything without a status
 * is answered 500 by the error handler.
 */
module Errors {

  datatype Status = BadRequest | Forbidden | NotFound | Conflict | Internal {
    /** The HTTP status the error handler answers with. */
    function Code(): int {
      match this
      case BadRequest => 400
      case Forbidden => 403
      case NotFound => 404
      case Conflict => 409
      case Internal => 500
    }
  }

  /** Which check threw: one constructor per distinct message of the source. */
  datatype Reason =
    // pricing
    | ProductInactive
    | RequiresQuote
    | WidthRequired
    | HeightRequired
    | WidthStep
    | HeightStep
    | WidthBelowMin
    | WidthAboveMax
    | HeightBelowMin
    | HeightAboveMax
    | BaseUnitPriceNotSet
    | BaseM2PriceNotSet
    | BaseLinearMPriceNotSet
    | PerM2OnNonAreaProduct
    // option selection and checkout
    | ProductNotFound
    | MissingOptions(group: string)
    | MaxSelectExceeded(group: string)
    | InsufficientStock
    | CustomerNotFound
    | QuoteNotFound
    | AlreadyConverted
    | ConflictUndefined
    // catalog administration
    | NegativeSelectBounds
    | MaxBelowMin
    | RequiredNeedsMinSelect
    | SlugTaken
    | OptionGroupNotFound
    // customers
    | EmailTaken
    | CpfTaken
    | CnpjTaken
    | AddressNotFound
    | AddressOfAnotherUser
    | EmailRequired

  datatype Error = Error(status: Status, reason: Reason)

  function BadRequestError(r: Reason): Error { Error(BadRequest, r) }
  function NotFoundError(r: Reason): Error { Error(NotFound, r) }
  function ConflictError(r: Reason): Error { Error(Conflict, r) }
  function ForbiddenError(r: Reason): Error { Error(Forbidden, r) }
}
