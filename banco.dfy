/**
  The persistent store shared by every repository and service: the `venda`
  and `veiculo` tables keyed by id, and the ids of the registered buyers.
  Buyers are registered outside this model; the store starts with a given set
  of them and no vehicles or sales.
*/
module Armazenamento {
  import opened Modelo

  class Banco {
    var vendas: map<Id, Venda>
    var veiculos: map<Id, Veiculo>
    var clientes: set<Id>

    /** The current contents as a value. */
    function Estado(): Db
      reads this
    {
      Db(vendas, veiculos, clientes)
    }

    ghost predicate Valid()
      reads this
    {
      Integro(Estado())
    }

    constructor (clientes: set<Id>)
      ensures Valid()
      ensures Estado() == Db(map[], map[], clientes)
    {
      vendas := map[];
      veiculos := map[];
      this.clientes := clientes;
    }
  }
}
