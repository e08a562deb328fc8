/**
  The records of the system: campaigns with their help methods, logged help
  ("help done"), and users. They carry no behaviour beyond the defaults
  their constructors apply.
 */
module Models {
  import opened Wrappers
  import opened Js

  /** One way of helping, as listed inside a campaign read from the database. */
  datatype HelpMethod = HelpMethod(id: int, description: string)

  /** A campaign as the data mapper returns it: string id and its help methods in row order. */
  datatype Campaign = Campaign(
    id: string,
    title: string,
    description: string,
    contact: string,
    helpMethods: seq<HelpMethod>)

  /**
    The `helpMethods` value handed to the campaign constructor: missing,
    `null`, a value that is neither nullish nor a list (a number, a boolean
    or a plain object without a `length`, whose `length` reads `undefined`),
    or a list whose
    entries are known by their `id`.
   */
  datatype MethodList = MethodsUndefined | MethodsNull | MethodsOther | Methods(ids: seq<int>)

  /** Reading `length` off the method list throws. */
  predicate NullishMethods(m: MethodList) {
    m.MethodsUndefined? || m.MethodsNull?
  }

  /** The method ids the mappers link: a list's ids; any other value has no positive `length`, so none. */
  function LinkedIds(m: MethodList): seq<int> {
    if m.Methods? then m.ids else []
  }

  /** A campaign built from a request body, on its way to an insert or an update. */
  datatype CampaignInput = CampaignInput(
    id: JsValue,
    title: JsValue,
    description: JsValue,
    contact: JsValue,
    helpMethods: MethodList)

  /**
    The campaign constructor: every field is copied, and a missing
    `helpMethods` defaults to the empty list. An explicit `null` is not
    missing, so it is kept.
   */
  function NewCampaignModel(id: JsValue, title: JsValue, description: JsValue, contact: JsValue,
                            helpMethods: MethodList): (c: CampaignInput)
    ensures c.id == id && c.title == title && c.description == description && c.contact == contact
    ensures !c.helpMethods.MethodsUndefined?
    ensures helpMethods.MethodsUndefined? <==> c.helpMethods == Methods([]) && helpMethods != c.helpMethods
  {
    CampaignInput(id, title, description, contact,
                  if helpMethods.MethodsUndefined? then Methods([]) else helpMethods)
  }

  /** A logged help action, with its ids as strings. */
  datatype HelpDone = HelpDone(
    id: string,
    idCampaign: string,
    idMethod: string,
    methodDescription: string,
    logDonation: string)

  /** A help action built from a request body, on its way to an insert. */
  datatype HelpDoneInput = HelpDoneInput(idCampaign: JsValue, idMethod: JsValue, logDonation: JsValue)

  /** The account states a user can be in. */
  datatype Status = AtivacaoPendente | Active | Blocked | Deleted

  /** A user on its way to an insert; `status` defaults to null, the photos to null. */
  datatype UserModel = UserModel(
    id: JsValue,
    name: JsValue,
    lastName: JsValue,
    dateOfBirth: JsValue,
    zipCode: JsValue,
    city: JsValue,
    state: JsValue,
    email: JsValue,
    password: JsValue,
    status: Option<Status>,
    userType: int,
    photo: JsValue,
    photoDocument: JsValue)
}
