/** Reading a user row and a balance row back through the io_model builders,
    as both versions of the user service do after each statement. */
module UserRows {
  import opened Wrappers
  import opened Store
  import opened MiniTocoUsers
  import opened MiniTocoBalances

  /** The user the builder produces from a row: every field copied. */
  function ToUser(row: UserRow): MiniTocoUser {
    MiniTocoUser(row.id, row.pw_hash, row.email, row.first_name, row.last_name, row.created_at, row.updated_at)
  }

  function ToBalance(row: BalanceRow): MiniTocoBalance {
    MiniTocoBalance(row.value, row.updated_at)
  }

  /** `MiniTocoUserBuilder.create()`, the seven setters from the row, `build()`:
      every field set, so the build cannot throw. */
  method BuildUser(row: UserRow) returns (u: MiniTocoUser)
    ensures u == ToUser(row)
  {
    var builder := new MiniTocoUserBuilder.Create(None);
    builder.Id(row.id);
    builder.Email(row.email);
    builder.FirstName(row.first_name);
    builder.LastName(row.last_name);
    builder.PwHash(row.pw_hash);
    builder.CreatedAt(row.created_at);
    builder.UpdatedAt(row.updated_at);
    var built := builder.Build();
    u := built.value;
  }

  /** `MiniTocoBalanceBuilder.create()`, `updatedAt`, `value`, `build()`. */
  method BuildBalance(row: BalanceRow) returns (b: MiniTocoBalance)
    ensures b == ToBalance(row)
  {
    var builder := new MiniTocoBalanceBuilder.Create(None);
    builder.UpdatedAt(row.updated_at);
    builder.Value(row.value);
    var built := builder.Build();
    b := built.value;
  }
}
