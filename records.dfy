/**
 * The records the API returns, as the pages read them. Every field the pages reach
 * through `?.` is optional; `end_time` and `created_at` are taken to be valid instants
 * and `amount` a whole number of francs.
 */
module Records {
  import opened Common
  import opened Calendar

  /** `{ id, name }` of a business. */
  datatype BizRef = BizRef(id: Option<string>, name: Option<string>)

  /** `{ id, phone, mac, router: { name }, business, end_time, ended, remainingHours }`. */
  datatype Session = Session(
    id: int,
    phone: Option<string>,
    mac: Option<string>,
    routerName: Option<string>,
    business: Option<BizRef>,
    endTime: Instant,
    ended: bool,
    remainingMs: Option<int>)   // `remainingHours`, kept in milliseconds; absent until the first tick

  /**
   * A router's `business` field: an object (or `null`, whose `typeof` is also 'object'),
   * or a bare id (absent when the field is `undefined`).
   */
  datatype RouterBusiness = BusinessObject(ref: Option<BizRef>) | BusinessScalar(id: Option<string>)

  /** `{ id, name, ip, location, health, business }`. */
  datatype Router = Router(
    id: int,
    name: Option<string>,
    ip: Option<string>,
    location: Option<string>,
    health: Option<string>,
    business: RouterBusiness)

  /** `{ id, phone, amount, plan, router: { name }, business, status, created_at }`. */
  datatype Payment = Payment(
    id: int,
    phone: Option<string>,
    amount: int,
    plan: Option<string>,
    routerName: Option<string>,
    business: Option<BizRef>,
    status: Option<string>,
    createdAt: Instant)

  /**
   * A record seen as a plain JavaScript object: the fields any search predicate reads.
   * A record that lacks a field reads it as absent; a missing `created_at` is an invalid date.
   */
  datatype Fields = Fields(
    phone: Option<string>,
    mac: Option<string>,
    routerName: Option<string>,
    name: Option<string>,
    ip: Option<string>,
    location: Option<string>,
    plan: Option<string>,
    createdAt: Option<Instant>)

  function SessionFields(s: Session): Fields
  {
    Fields(s.phone, s.mac, s.routerName, None, None, None, None, None)
  }

  function RouterFields(r: Router): Fields
  {
    Fields(None, None, None, r.name, r.ip, r.location, None, None)
  }

  function PaymentFields(p: Payment): Fields
  {
    Fields(p.phone, None, p.routerName, None, None, None, p.plan, Some(p.createdAt))
  }

  /** The signed-in user's profile: `{ name, username, email, role }`. */
  datatype User = User(name: Option<string>, username: Option<string>, email: Option<string>, role: Option<string>)
}
