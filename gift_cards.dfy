/** The gift-card validator and store (controllers/akif/giftCardController.js). */
module GiftCards {
  import opened Options
  import Js
  import opened Store

  const FieldsRequiredMessage := "All fields (code, balance, expirationDate) are required"
  const BalanceMessage := "Balance must be a positive number"
  const DateMessage := "Expiration date must be a valid date"
  const AddedMessage := "Gift card added successfully"
  const AddErrorMessage := "Error adding gift card"
  const FetchErrorMessage := "Error fetching gift cards"

  datatype GiftCard = GiftCard(id: string, code: Js.Value, balance: Js.Value, expirationDate: Js.Value)

  /** The store calls the two handlers make. */
  datatype Call = Save | Find

  datatype Reply =
    | Added(giftCard: GiftCard)      // 201 { message: AddedMessage, giftCard }
    | Cards(cards: seq<GiftCard>)    // 200, the array itself
    | Invalid(message: string)       // 400 { message }
    | AddFailed(error: string)       // 500 { message: AddErrorMessage, error }
    | FetchFailed(error: string)     // 500 { message: FetchErrorMessage, error }
  {
    function Status(): nat {
      match this
      case Added(_) => 201
      case Cards(_) => 200
      case Invalid(_) => 400
      case AddFailed(_) => 500
      case FetchFailed(_) => 500
    }

    /** The `message` field of the JSON body, when it has one (the list reply is a bare array). */
    function Message(): Option<string> {
      match this
      case Added(_) => Some(AddedMessage)
      case Cards(_) => None
      case Invalid(m) => Some(m)
      case AddFailed(_) => Some(AddErrorMessage)
      case FetchFailed(_) => Some(FetchErrorMessage)
    }
  }

  datatype Outcome = Outcome(reply: Reply, cards: seq<GiftCard>)

  /** The three guards of `addGiftCard` in order; the message of the first that fails.
      `isDate(v)` stands for `!isNaN(Date.parse(v))`. */
  function Validate(code: Js.Value, balance: Js.Value, expirationDate: Js.Value, isDate: Js.Value -> bool)
    : (r: Option<string>)
    ensures r == Some(FieldsRequiredMessage) <==>
      !(Js.Truthy(code) && Js.Truthy(balance) && Js.Truthy(expirationDate))
    ensures r == Some(BalanceMessage) <==>
      Js.Truthy(code) && Js.Truthy(balance) && Js.Truthy(expirationDate) && !(balance.Num? && balance.x > 0.0)
    ensures r == Some(DateMessage) <==>
      Js.Truthy(code) && Js.Truthy(expirationDate) && balance.Num? && balance.x > 0.0 && !isDate(expirationDate)
    ensures r == None <==>
      Js.Truthy(code) && Js.Truthy(expirationDate) && balance.Num? && balance.x > 0.0 && isDate(expirationDate)
  {
    if !Js.Truthy(code) || !Js.Truthy(balance) || !Js.Truthy(expirationDate) then Some(FieldsRequiredMessage)
    else if !Js.IsNumber(balance) || Js.AtMostZero(balance) then Some(BalanceMessage)
    else if !isDate(expirationDate) then Some(DateMessage)
    else None
  }

  /** `addGiftCard`: the guards, then one save. */
  function AddOutcome(
    cards: seq<GiftCard>, code: Js.Value, balance: Js.Value, expirationDate: Js.Value,
    isDate: Js.Value -> bool, fault: Fault<Call>
  ): (o: Outcome)
    ensures Validate(code, balance, expirationDate, isDate).Some? ==>
      o == Outcome(Invalid(Validate(code, balance, expirationDate, isDate).value), cards)
    ensures o.reply.Added? <==> Validate(code, balance, expirationDate, isDate) == None && !FailsAt(fault, Save)
    ensures o.reply.AddFailed? <==> Validate(code, balance, expirationDate, isDate) == None && FailsAt(fault, Save)
    ensures o.reply.AddFailed? ==> o.reply.error == fault.message
    ensures !o.reply.Added? ==> o.cards == cards
    ensures o.reply.Added? ==>
      o.cards == cards + [o.reply.giftCard] && (forall k :: 0 <= k < |cards| ==> cards[k].id != o.reply.giftCard.id)
      && o.reply.giftCard.code == code && o.reply.giftCard.balance == balance
      && o.reply.giftCard.expirationDate == expirationDate
  {
    match Validate(code, balance, expirationDate, isDate)
    case Some(message) => Outcome(Invalid(message), cards)
    case None =>
      if FailsAt(fault, Save) then Outcome(AddFailed(fault.message), cards)
      else
        var card := GiftCard(FreshId(cards, (g: GiftCard) => g.id), code, balance, expirationDate);
        Outcome(Added(card), cards + [card])
  }

  class GiftCardStore {
    var cards: seq<GiftCard>

    constructor ()
      ensures cards == []
    {
      cards := [];
    }

    method AddGiftCard(code: Js.Value, balance: Js.Value, expirationDate: Js.Value, isDate: Js.Value -> bool, fault: Fault<Call>)
      returns (res: Reply)
      modifies this
      ensures var o := AddOutcome(old(cards), code, balance, expirationDate, isDate, fault);
        res == o.reply && cards == o.cards
    {
      if !Js.Truthy(code) || !Js.Truthy(balance) || !Js.Truthy(expirationDate) {
        return Invalid(FieldsRequiredMessage);
      }
      if !Js.IsNumber(balance) || Js.AtMostZero(balance) {
        return Invalid(BalanceMessage);
      }
      if !isDate(expirationDate) {
        return Invalid(DateMessage);
      }
      if FailsAt(fault, Save) {
        return AddFailed(fault.message);
      }
      var card := GiftCard(FreshId(cards, (g: GiftCard) => g.id), code, balance, expirationDate);
      cards := cards + [card];
      res := Added(card);
    }

    /** `getGiftCards`: the whole collection; reads it and changes nothing. */
    method GetGiftCards(fault: Fault<Call>) returns (res: Reply)
      ensures FailsAt(fault, Find) ==> res == FetchFailed(fault.message)
      ensures !FailsAt(fault, Find) ==> res == Cards(cards)
    {
      if FailsAt(fault, Find) {
        return FetchFailed(fault.message);
      }
      res := Cards(cards);
    }
  }
}
